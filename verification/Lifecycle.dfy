// Waiting on a sandbox (sandbox_handle.go): readiness, stop, terminate and failed-sandbox release,
// each a poll loop over a server that may hold requests, answer at once, fail, or never change.
//
// A script gives one `Tick` per status request, and a wait is followed for as long as its script
// lasts. The clock advances by what a request takes and by at least each completed sleep.
module Lifecycle {
  import opened Common
  import opened Pace

  const DEFAULT_POLL_INTERVAL := 2 * SECOND
  const DEFAULT_TERMINATE_WAIT := 90 * SECOND
  const STOP_WAIT := 390 * SECOND
  const DEFAULT_MEMORY_WAIT := 360 * SECOND

  function Interval(asked: int): (interval: int)
    ensures interval > 0
  {
    if asked <= 0 then DEFAULT_POLL_INTERVAL else asked
  }

  function TerminateWait(asked: int): int { if asked <= 0 then DEFAULT_TERMINATE_WAIT else asked }

  datatype Info = Info(status: string, reason: string, etag: string, retryable: Option<bool>)

  // Transient: a timeout, a connection fault, or a 502, 503 or 504.
  datatype Reply = Present(info: Info) | NotModified | Missing | Transient | Broken

  // One status request and what surrounds it: whether the caller's context and the wait's own, which
  // also ends at the wait's deadline, have ended before the request, and whether they end after it.
  datatype Tick = Tick(reply: Reply, took: nat, callerEnded: bool, waitEnded: bool,
                       callerEnds: bool, waitEnds: bool, sleepCut: bool, overslept: nat)

  predicate ComputeReleased(info: Info) { info.status == "terminated" && info.reason == "COMPUTE_RELEASED" }

  // ---------------------------------------------------------------- one observation

  datatype Failure =
    | NotFound | Request | Context | ReadyTimeout
    | SandboxFailed(state: string) | SaveFailed(again: bool)
    | NotFailed | StillCapturing | NoVersion

  datatype Observation = Observation(info: Option<Info>, delay: int, failure: Option<Failure>)

  // Whether `info` is news after `previous`: it carries an entity tag that `previous` does not.
  predicate Changed(previous: Option<Info>, info: Info) {
    info.etag != "" && (previous.None? || info.etag != previous.value.etag)
  }

  // observe: a conditional wait when the last answer had an entity tag, a plain read otherwise. News is
  // acted on at once; anything else waits out the interval, less what the request itself took.
  function Observe(previous: Option<Info>, tick: Tick, interval: int): Observation {
    var waiting := previous.Some? && previous.value.etag != "";
    var delay := Max(0, interval - tick.took);
    var info :=
      match tick.reply
      case Present(i) => Some(i)
      case NotModified => if waiting then previous else None
      case Transient => if waiting && !tick.waitEnds then previous else None
      case _ => None;
    if info.Some? then Observation(info, if Changed(previous, info.value) then 0 else delay, None)
    else Observation(None, delay, Some(if tick.reply.Missing? then NotFound else Request))
  }

  // Whether the next observation can be a conditional wait.
  predicate Waits(previous: Option<Info>) { previous.Some? && previous.value.etag != "" }

  // The n-th observation of a wait that starts from `start`: each is conditional on the one before.
  function Obs(start: Option<Info>, script: seq<Tick>, n: nat, interval: int): Observation
    requires n < |script|
  {
    Observe(if n == 0 then start else Obs(start, script, n - 1, interval).info, script[n], interval)
  }

  // The first n ticks let the wait go on: no context had ended, and no sleep was cut that was asked for.
  ghost predicate WentOn(start: Option<Info>, script: seq<Tick>, n: int, interval: int, caller: bool, wait: bool) {
    n <= |script| && forall i | 0 <= i < n ::
      && (caller ==> !script[i].callerEnded) && (wait ==> !script[i].waitEnded)
      && (script[i].sleepCut ==> Obs(start, script, i, interval).delay <= 0)
  }

  lemma WentOnOne(start: Option<Info>, script: seq<Tick>, n: nat, interval: int, caller: bool, wait: bool)
    requires n < |script| && WentOn(start, script, n, interval, caller, wait)
    requires (caller ==> !script[n].callerEnded) && (wait ==> !script[n].waitEnded)
    requires script[n].sleepCut ==> Obs(start, script, n, interval).delay <= 0
    ensures WentOn(start, script, n + 1, interval, caller, wait)
  {
    hide Obs;
  }

  // What was seen is what the script's answers showed, in order.
  ghost predicate Shows(start: Option<Info>, script: seq<Tick>, interval: int, seen: seq<Info>) {
    |seen| <= |script| && forall i | 0 <= i < |seen| :: Obs(start, script, i, interval).info == Some(seen[i])
  }

  lemma ShowsOne(start: Option<Info>, script: seq<Tick>, interval: int, seen: seq<Info>)
    requires Shows(start, script, interval, seen) && |seen| < |script|
    ensures var o := Observe(if seen == [] then start else Last(seen), script[|seen|], interval);
      && Obs(start, script, |seen|, interval) == o
      && (o.info.Some? ==> Shows(start, script, interval, seen + [o.info.value]))
  {
    hide Observe;
  }

  lemma NotShown(start: Option<Info>, script: seq<Tick>, interval: int)
    ensures Shows(start, script, interval, [])
  {
  }

  lemma NotYetOn(start: Option<Info>, script: seq<Tick>, interval: int, caller: bool, wait: bool)
    ensures WentOn(start, script, 0, interval, caller, wait) && WentOn(start, script, -1, interval, caller, wait)
  {
  }

  // ---------------------------------------------------------------- pacing

  // Entity tags that were news when they were seen, the first one included.
  function Changes(seen: seq<Info>): nat {
    if seen == [] then 0
    else
      var before, last := seen[..|seen|-1], seen[|seen|-1];
      Changes(before) + if Changed(Last(before), last) then 1 else 0
  }

  // An observation either answers, at once if it is news and paced otherwise, or fails.
  lemma Observed(previous: Option<Info>, tick: Tick, interval: int)
    ensures var o := Observe(previous, tick, interval);
      && (o.failure.None? <==> o.info.Some?)
      && (o.failure.None? <==>
            || tick.reply.Present?
            || (Waits(previous) && (tick.reply.NotModified? || (tick.reply.Transient? && !tick.waitEnds))))
      && (o.failure.None? && !tick.reply.Present? ==> o.info == previous)
      && (o.failure == Some(NotFound) <==> tick.reply.Missing?)
      && (o.failure.Some? ==> o.failure.value.NotFound? || o.failure.value.Request?)
      && (tick.reply.Present? ==> o.info == Some(tick.reply.info))
      && (o.failure == Some(Request) ==> !tick.reply.Present? && !tick.reply.Missing?)
      && o.delay == (if o.info.Some? && Changed(previous, o.info.value) then 0 else Max(0, interval - tick.took))
  {
    hide Changed;
  }

  function Last(seen: seq<Info>): Option<Info> { if seen == [] then None else Some(seen[|seen|-1]) }

  lemma NoChanges()
    ensures Changes([]) == 0
  {
  }

  lemma ChangesOne(seen: seq<Info>, info: Info)
    ensures Changes(seen + [info]) == Changes(seen) + if Changed(Last(seen), info) then 1 else 0
  {
    hide Changed;
    assert (seen + [info])[..|seen|] == seen;
  }

  // ---------------------------------------------------------------- waiting for a state

  datatype WaitResult = Reached | Ended(failure: Failure) | Unfinished      // Unfinished: the script ran out

  // A sleep as it was asked for.
  datatype Rest = Rest(at: int, length: int)

  predicate TerminalState(state: string) { state == "failed" || state == "terminated" || state == "unavailable" }

  // No answer so far decided the wait.
  predicate Pending(seen: seq<Info>, target: string) {
    forall i | 0 <= i < |seen| :: seen[i].status != target && !TerminalState(seen[i].status)
  }

  lemma NonePending(target: string)
    ensures Pending([], target)
  {
  }

  lemma PendingOne(seen: seq<Info>, info: Info, target: string)
    requires Pending(seen, target)
    ensures Pending((seen + [info])[..|seen|], target)
    ensures info.status != target && !TerminalState(info.status) ==> Pending(seen + [info], target)
  {
    hide TerminalState;
    assert (seen + [info])[..|seen|] == seen;
  }

  // No sleep was asked to outlast the deadline.
  predicate Punctual(rests: seq<Rest>, timeout: int) {
    forall i | 0 <= i < |rests| :: rests[i].length > 0 ==> rests[i].at + rests[i].length <= timeout
  }

  // The wait's own time is up, and not the caller's.
  predicate TimeIsUp(tick: Tick) { tick.waitEnds && !tick.callerEnds }

  // readinessBudgetError: whatever came once only the wait's own time is up is a timeout.
  function BudgetError(tick: Tick, f: Failure): Failure {
    if TimeIsUp(tick) then ReadyTimeout else f
  }

  // A sandbox is reported failed only in the terminal state last seen.
  predicate FailedAsSeen(f: Failure, seen: seq<Info>) {
    f.SandboxFailed? ==> seen != [] && f.state == seen[|seen|-1].status && TerminalState(f.state)
  }

  // The most time the first n ticks of a script can take, each slept on for at most the interval.
  function TimeFor(script: seq<Tick>, n: nat, interval: int): int
    requires n <= |script|
  {
    if n == 0 then 0 else TimeFor(script, n - 1, interval) + script[n - 1].took + script[n - 1].overslept + interval
  }

  lemma TimeOne(script: seq<Tick>, n: nat, interval: int)
    requires n < |script|
    ensures TimeFor(script, n + 1, interval) ==
      TimeFor(script, n, interval) + script[n].took + script[n].overslept + interval
    ensures TimeFor(script, 0, interval) == 0
  {
  }

  lemma NoTime(script: seq<Tick>, interval: int)
    ensures TimeFor(script, 0, interval) == 0
  {
  }

  // Why a wait for a state fails other than by what it saw: the caller's context had ended or a sleep was
  // cut, or the last request failed.
  predicate WaitCause(script: seq<Tick>, requests: nat, f: Failure) {
    match f
    case Context =>
      || (requests < |script| && script[requests].callerEnded)
      || (0 < requests <= |script| && script[requests - 1].sleepCut)
    case NotFound => 0 < requests <= |script| && script[requests - 1].reply.Missing?
    case Request =>
      0 < requests <= |script| && !script[requests - 1].reply.Present? && !script[requests - 1].reply.Missing?
    case ReadyTimeout => true
    case SandboxFailed(_) => true
    case _ => false
  }

  // The wait's time was up, or its context had ended at the last of the `ticks` it came to.
  predicate RanOut(script: seq<Tick>, ticks: nat, elapsed: int, timeout: int) {
    elapsed >= timeout || (0 < ticks <= |script| && (script[ticks - 1].waitEnded || script[ticks - 1].waitEnds))
  }

  // The loop of waitUntilState, at a given interval.
  method Poll(target: string, timeout: int, interval: int, script: seq<Tick>)
    returns (result: WaitResult, requests: nat, seen: seq<Info>, rests: seq<Rest>, elapsed: int)
    requires interval > 0
    ensures result.Reached? <==> seen != [] && seen[|seen|-1].status == target
    ensures seen != [] ==> Pending(seen[..|seen|-1], target)
    ensures result.Ended? ==> FailedAsSeen(result.failure, seen)
    ensures requests <= Ceiling(timeout, interval) + Changes(seen) && Punctual(rests, timeout)
    ensures result == Ended(ReadyTimeout) ==>
      elapsed >= timeout || (0 < requests <= |script| && script[requests - 1].waitEnds)
    ensures requests <= |script| && elapsed <= TimeFor(script, requests, interval)
    ensures result.Ended? ==> WaitCause(script, requests, result.failure)
    ensures result.Unfinished? ==> requests == |script|
    ensures Shows(None, script, interval, seen)
    ensures WentOn(None, script, requests - 1, interval, true, false)
    ensures requests > 0 ==> !script[requests - 1].callerEnded
  {
    hide Obs, Shows, WentOn;
    NotYetOn(None, script, interval, true, false);
    NotShown(None, script, interval);
    hide Observe, Changed, Changes, Paced, Ceiling, TimeFor, Pending, TerminalState;
    NoTime(script, interval);
    NonePending(target);
    var now := 0;
    var info: Option<Info> := None;
    requests, seen, rests := 0, [], [];
    ghost var idle: nat := 0;
    Unhurried(interval, timeout);
    NoChanges();
    for i := 0 to |script|
      invariant info == Last(seen) && requests == i
      invariant Pending(seen, target)
      invariant seen != [] ==> seen[|seen|-1].status != target && Pending(seen[..|seen|-1], target)
      invariant requests == |seen| == idle + Changes(seen)
      invariant now >= 0 && Paced(idle, interval, now, timeout) && idle <= Ceiling(timeout, interval)
      invariant Punctual(rests, timeout) && now <= TimeFor(script, i, interval)
      invariant Shows(None, script, interval, seen) && WentOn(None, script, i, interval, true, false)
      invariant i > 0 ==> WentOn(None, script, i - 1, interval, true, false) && !script[i - 1].callerEnded
    {
      var tick := script[i];
      TimeOne(script, i, interval);
      ShowsOne(None, script, interval, seen);
      if tick.callerEnded { return Ended(Context), requests, seen, rests, now; }
      if now >= timeout { return Ended(ReadyTimeout), requests, seen, rests, now; }
      var o := Observe(info, tick, interval);
      Observed(info, tick, interval);
      PacedStep(idle, interval, now, timeout, tick.took, interval);
      requests := requests + 1;
      if o.failure.Some? { return Ended(BudgetError(tick, o.failure.value)), requests, seen, rests, now; }
      ghost var news := Changed(info, o.info.value);
      ChangesOne(seen, o.info.value);
      PendingOne(seen, o.info.value, target);
      seen, info := seen + [o.info.value], o.info;
      var status := o.info.value.status;
      if status == target { return Reached, requests, seen, rests, now; }
      if TerminalState(status) { return Ended(SandboxFailed(status)), requests, seen, rests, now; }
      var rest := 0;
      if o.delay > 0 {
        rest := Max(0, Min(o.delay, timeout - now - tick.took));
        rests := rests + [Rest(now + tick.took, rest)];
        if tick.sleepCut { return Ended(BudgetError(tick, Context)), requests, seen, rests, now; }
        rest := rest + tick.overslept;
      }
      WentOnOne(None, script, i, interval, true, false);
      if news {
        PacedLater(idle, interval, now, timeout, tick.took + rest);
      } else {
        PacedStep(idle, interval, now, timeout, tick.took, rest);
        idle := idle + 1;
      }
      now := now + tick.took + rest;
    }
    result, elapsed := Unfinished, now;
  }

  class SandboxHandle {
    var status: string

    constructor (status: string)
      ensures this.status == status
    {
      this.status := status;
    }

    // waitUntilState. `seen` is every answer in order, `requests` counts the status requests, `rests`
    // the sleeps, with times measured from the start of the wait.
    method WaitUntilState(target: string, timeout: int, pollInterval: int, script: seq<Tick>)
      returns (result: WaitResult, requests: nat, seen: seq<Info>, rests: seq<Rest>, elapsed: int)
      modifies this`status
      ensures result.Reached? <==> seen != [] && seen[|seen|-1].status == target
      ensures seen != [] ==> Pending(seen[..|seen|-1], target)
      ensures result.Ended? ==> FailedAsSeen(result.failure, seen)
      ensures status == if seen == [] then old(status) else seen[|seen|-1].status
      // Never a spin: one request per interval of the timeout, and one per change.
      ensures var interval := Interval(pollInterval);
        requests <= Ceiling(timeout, interval) + Changes(seen)
      ensures Punctual(rests, timeout)
      // It times out only once the time is up.
      ensures result == Ended(ReadyTimeout) ==>
        elapsed >= timeout || (0 < requests <= |script| && script[requests - 1].waitEnds)
      ensures var interval := Interval(pollInterval);
        requests <= |script| && elapsed <= TimeFor(script, requests, interval)
      // It fails otherwise only for cause, and goes on only while it may.
      ensures result.Ended? ==> WaitCause(script, requests, result.failure)
      ensures Shows(None, script, Interval(pollInterval), seen)
      ensures WentOn(None, script, requests - 1, Interval(pollInterval), true, false)
      ensures requests > 0 ==> !script[requests - 1].callerEnded
      ensures result.Unfinished? ==> requests == |script|
    {
      hide Ceiling, TimeFor, Changes, Pending, Shows, WentOn, Interval;
      result, requests, seen, rests, elapsed := Poll(target, timeout, Interval(pollInterval), script);
      if seen != [] { status := seen[|seen|-1].status; }
    }

    // WaitUntilRunning: a create that already reported running is not polled at all.
    method WaitUntilRunning(timeout: int, pollInterval: int, script: seq<Tick>)
      returns (result: WaitResult, requests: nat, seen: seq<Info>)
      modifies this`status
      ensures old(status) == "running" ==> result.Reached? && requests == 0
      ensures result.Reached? ==> status == "running" && (seen == [] ==> old(status) == "running")
      ensures result.Ended? ==> FailedAsSeen(result.failure, seen) && WaitCause(script, requests, result.failure)
      ensures var interval := Interval(pollInterval);
        requests <= Ceiling(timeout, interval) + Changes(seen)
    {
      hide Ceiling;
      NoChanges();
      if status == "running" {
        Unhurried(Interval(pollInterval), timeout);
        return Reached, 0, [];
      }
      var rests, elapsed;
      result, requests, seen, rests, elapsed := WaitUntilState("running", timeout, pollInterval, script);
    }

    // transitionMemory (Pause and Resume): acceptance proves nothing; success is the target state read
    // after the request, which a conflict may already show. `start` and `end` say which contexts have
    // ended once the request or its reread, and once the wait, has returned.
    method TransitionMemory(target: string, request: Posted, reread: Reply, start: Tick, end: Tick, script: seq<Tick>)
      returns (result: WaitResult, seen: seq<Info>, requests: nat)
      requires target == "paused" || target == "running"
      modifies this`status
      ensures result.Reached? ==> seen != [] && seen[|seen|-1].status == target && status == target
      ensures request.Errs? ==> result == Ended(BudgetError(start, Request)) && seen == []
      // A target that is reached is reported as a timeout exactly if the operation's time is up by then.
      ensures request.Accepted? && seen != [] && seen[|seen|-1].status == target ==>
        result == if TimeIsUp(end) then Ended(ReadyTimeout) else Reached
      // Once the request is accepted it fails only as the wait does, or because the time is up.
      ensures request.Accepted? && result.Ended? ==>
        TimeIsUp(end) || (FailedAsSeen(result.failure, seen) && WaitCause(script, requests, result.failure))
      ensures request.Conflicts? && reread.Present? ==>
        seen == [reread.info] && (result.Reached? <==> reread.info.status == target)
    {
      requests := 0;
      seen := [];
      if request.Errs? { return Ended(BudgetError(start, Request)), seen, requests; }
      status := "";
      if request.Conflicts? {
        if !reread.Present? {
          return Ended(BudgetError(start, if reread.Missing? then NotFound else Request)), seen, requests;
        }
        status, seen := reread.info.status, [reread.info];
        return if status == target then Reached else Ended(Request), seen, requests;
      }
      var rests, elapsed;
      var left := DEFAULT_MEMORY_WAIT - start.took;
      result, requests, seen, rests, elapsed := WaitUntilState(target, left, DEFAULT_POLL_INTERVAL, script);
      if TimeIsUp(end) && !result.Unfinished? { result := Ended(ReadyTimeout); }
    }
  }

  // ---------------------------------------------------------------- waiting for release

  // How a mutation was answered.
  datatype Posted = Accepted | Conflicts | Errs

  // What a status request showed.
  datatype Sight = Saw(info: Info) | Gone | Nothing

  // Evidence that the compute is released: the record is gone, or says so.
  predicate Evidence(s: Sight) { s.Gone? || (s.Saw? && ComputeReleased(s.info)) }

  function SightOf(o: Observation): Sight {
    if o.info.Some? then Saw(o.info.value) else if o.failure == Some(NotFound) then Gone else Nothing
  }

  // What a plain read shows.
  function SightOfReply(reply: Reply): Sight {
    match reply
    case Present(info) => Saw(info)
    case Missing => Gone
    case _ => Nothing
  }

  // The sights of a wait are what its script's answers showed, in order.
  ghost predicate Sights(start: Option<Info>, script: seq<Tick>, interval: int, sights: seq<Sight>) {
    |sights| <= |script| && forall i | 0 <= i < |sights| :: sights[i] == SightOf(Obs(start, script, i, interval))
  }

  // What a look remembers for the next one.
  function Recall(s: Sight): Option<Info> { if s.Saw? then Some(s.info) else None }

  function Remembers(start: Option<Info>, sights: seq<Sight>): Option<Info> {
    if sights == [] then start else Recall(sights[|sights|-1])
  }

  lemma NoSights(start: Option<Info>, script: seq<Tick>, interval: int)
    ensures Sights(start, script, interval, []) && Remembers(start, []) == start
  {
  }

  lemma SightsOne(start: Option<Info>, script: seq<Tick>, interval: int, sights: seq<Sight>)
    requires Sights(start, script, interval, sights) && |sights| < |script|
    ensures var o := Observe(Remembers(start, sights), script[|sights|], interval);
      && Obs(start, script, |sights|, interval) == o
      && Sights(start, script, interval, sights + [SightOf(o)])
      && Remembers(start, sights + [SightOf(o)]) == o.info
  {
  }

  // No sight but the last was evidence.
  predicate FirstEvidence(sights: seq<Sight>) {
    forall i | 0 <= i < |sights| - 1 :: !Evidence(sights[i])
  }

  // A wait for release ends true exactly at its first evidence, never with an error, and false
  // otherwise; None while its script lasted no longer.
  predicate Confirmed(sights: seq<Sight>, released: Option<bool>, failure: Option<Failure>) {
    && (released == Some(true) ==> failure.None?)
    && (released == Some(true) <==> sights != [] && Evidence(sights[|sights|-1]))
    && FirstEvidence(sights)
  }

  // What a request or sleep that failed is reported as, by what ended.
  function CutShort(tick: Tick): Option<Failure> {
    if tick.callerEnds then Some(Context) else if tick.waitEnds then None else Some(Request)
  }

  predicate SawSaveFail(s: Sight, again: bool) {
    s.Saw? && s.info.status == "save_failed" && again == (s.info.retryable == Some(true))
  }

  // ---------------------------------------------------------------- stop

  // Stop asks for at most one stop, and for none when the first observation shows one under way, the
  // compute released or gone, or a save that failed for good.
  predicate AsksToStop(first: Reply) {
    && first.Present? && !ComputeReleased(first.info)
    && !(first.info.status == "save_failed" && first.info.retryable != Some(true))
    && first.info.status != "saving" && first.info.status != "stopping"
  }

  // The one place where evidence of release does not count: the record reread because the stop request
  // met a conflict is gone, or terminated with its compute released.
  predicate IgnoresEvidence(first: Reply, post: Posted, reread: Reply) {
    AsksToStop(first) && post.Conflicts? && Evidence(SightOfReply(reread))
  }

  // Why Stop does not come to its wait: the first look fails or shows a save that failed for good, the stop
  // request fails, or it conflicts with something other than a stop under way.
  predicate Refuses(first: Reply, post: Posted, reread: Reply, f: Failure) {
    || (f == Request && SightOfReply(first).Nothing?)
    || (f == SaveFailed(false) && first.Present? && first.info.status == "save_failed"
        && first.info.retryable != Some(true))
    || (f == Request && AsksToStop(first) &&
        (post.Errs? || (post.Conflicts? && (reread.Present? ==>
           reread.info.status != "saving" && reread.info.status != "stopping"))))
  }

  // Stop. `sights` is every status request it made, `seen` the answers its wait compared, `ticks` how
  // far its wait came.
  method Stop(first: Tick, post: Posted, reread: Reply, script: seq<Tick>)
    returns (released: Option<bool>, failure: Option<Failure>, posts: nat, sights: seq<Sight>, seen: seq<Info>,
             ticks: nat, elapsed: int)
    // True exactly at the first evidence, and never with an error, unless that evidence is ignored.
    ensures !IgnoresEvidence(first.reply, post, reread) ==> Confirmed(sights, released, failure)
    ensures IgnoresEvidence(first.reply, post, reread) ==>
      && released == Some(false) && failure == Some(if reread.Missing? then NotFound else Request)
      && sights == [Saw(first.reply.info), SightOfReply(reread)]
    ensures posts == if AsksToStop(first.reply) then 1 else 0
    // Its looks are what the answers showed, and it goes on only while it may.
    ensures var n := Preliminary(first.reply, post);
      && |sights| >= n && sights[0] == SightOfReply(first.reply) && (n == 2 ==> sights[1] == SightOfReply(reread))
      && Sights(FirstInfo(first.reply), script, DEFAULT_POLL_INTERVAL, sights[n..])
    ensures WentOn(FirstInfo(first.reply), script, ticks - 1, DEFAULT_POLL_INTERVAL, true, true)
    ensures ticks > 0 && ticks <= |script| && script[ticks - 1].callerEnded ==> failure == Some(Context)
    // Unconfirmed without an error means the wait ran out; a failed save is reported as it was seen.
    ensures released == Some(false) && failure.None? ==> RanOut(script, ticks, elapsed, STOP_WAIT)
    ensures failure.Some? && failure.value.SaveFailed? ==> SawSaveFail(sights[|sights|-1], failure.value.again)
    ensures released.None? ==> failure.None? && ticks == |script|
    ensures ticks <= |script| && elapsed <= first.took + TimeFor(script, ticks, DEFAULT_POLL_INTERVAL)
    // It fails only for cause: in the wait, or because the first look, the stop request or the reread did.
    ensures failure.Some? ==>
      || IgnoresEvidence(first.reply, post, reread)
      || StopCause(script, ticks, sights, failure.value)
      || (ticks == 0 && Refuses(first.reply, post, reread, failure.value))
    // Never a spin: beside the first look and the reread, one per interval and one per change.
    ensures |sights| <= 2 + Ceiling(STOP_WAIT, DEFAULT_POLL_INTERVAL) + Changes(seen)
  {
    hide Ceiling, Changes, TimeFor, Sights, WentOn, StopCause, RanOut, Refuses, ComputeReleased;
    NoTime(script, DEFAULT_POLL_INTERVAL);
    NoChanges();
    NotYetOn(FirstInfo(first.reply), script, DEFAULT_POLL_INTERVAL, true, true);
    NoSights(FirstInfo(first.reply), script, DEFAULT_POLL_INTERVAL);
    Unhurried(DEFAULT_POLL_INTERVAL, STOP_WAIT);
    released, failure, posts, sights := BeginStop(first.reply, post, reread);
    assert |sights| == Preliminary(first.reply, post);
    if released.Some? {
      assert sights[|sights|..] == [];
      return released, failure, posts, sights, [], 0, first.took;
    }
    var more: seq<Sight>;
    released, failure, more, seen, ticks, elapsed := AwaitStop(first.reply.info, first.took, script);
    Joined(sights, more, script, ticks, failure);
    sights := sights + more;
  }

  function FirstInfo(first: Reply): Option<Info> { if first.Present? then Some(first.info) else None }

  // How many looks come before the wait.
  function Preliminary(first: Reply, post: Posted): nat { if AsksToStop(first) && post.Conflicts? then 2 else 1 }

  // The sights of the wait come after those before it, none of which was evidence.
  lemma Joined(sights: seq<Sight>, more: seq<Sight>, script: seq<Tick>, ticks: nat, failure: Option<Failure>)
    requires forall i | 0 <= i < |sights| :: !Evidence(sights[i])
    requires FirstEvidence(more)
    ensures FirstEvidence(sights + more) && (sights + more)[|sights|..] == more
    ensures more != [] ==> (sights + more)[|sights + more| - 1] == more[|more|-1]
    ensures failure.Some? && StopCause(script, ticks, more, failure.value) ==>
      StopCause(script, ticks, sights + more, failure.value)
  {
    hide Evidence;
    forall i | 0 <= i < |sights + more| - 1 ensures !Evidence((sights + more)[i]) {
      if i >= |sights| { assert (sights + more)[i] == more[i - |sights|]; }
    }
  }

  // Stop up to its wait: the first look, the stop request if it calls for one, and the reread after a
  // conflict. None: the stop is under way and the wait begins.
  method BeginStop(first: Reply, post: Posted, reread: Reply)
    returns (released: Option<bool>, failure: Option<Failure>, posts: nat, sights: seq<Sight>)
    ensures posts == if AsksToStop(first) then 1 else 0
    ensures sights == [SightOfReply(first)] + if Preliminary(first, post) == 2 then [SightOfReply(reread)] else []
    ensures released.Some? && !IgnoresEvidence(first, post, reread) ==> Confirmed(sights, released, failure)
    ensures IgnoresEvidence(first, post, reread) ==>
      released == Some(false) && failure == Some(if reread.Missing? then NotFound else Request)
    ensures failure.Some? ==> released == Some(false)
    ensures released == Some(false) ==>
      failure.Some? && (IgnoresEvidence(first, post, reread) || Refuses(first, post, reread, failure.value))
    ensures failure.Some? && failure.value.SaveFailed? ==> SawSaveFail(sights[|sights|-1], failure.value.again)
    ensures released.None? ==>
      && first.Present? && failure.None? && forall i | 0 <= i < |sights| :: !Evidence(sights[i])
  {
    posts, failure, sights := 0, None, [SightOfReply(first)];
    if first.Missing? { return Some(true), None, posts, sights; }
    if !first.Present? { return Some(false), Some(Request), posts, sights; }
    var info := first.info;
    if ComputeReleased(info) { return Some(true), None, posts, sights; }
    if info.status == "save_failed" && info.retryable != Some(true) {
      return Some(false), Some(SaveFailed(false)), posts, sights;
    }
    if info.status != "saving" && info.status != "stopping" {
      posts := 1;
      if post.Errs? { return Some(false), Some(Request), posts, sights; }
      if post.Conflicts? {
        sights := sights + [SightOfReply(reread)];
        if !reread.Present? {
          return Some(false), Some(if reread.Missing? then NotFound else Request), posts, sights;
        }
        if reread.info.status != "saving" && reread.info.status != "stopping" {
          return Some(false), Some(Request), posts, sights;
        }
      }
    }
    released := None;
  }

  // Why the wait of a stop ends in an error: the caller's context ended, the last request failed or a
  // sleep did, or the save failed.
  predicate StopCause(script: seq<Tick>, ticks: nat, sights: seq<Sight>, f: Failure) {
    0 < ticks <= |script| &&
    var last := script[ticks - 1];
    match f
    case Context => last.callerEnded || last.callerEnds
    case Request => (sights != [] && sights[|sights|-1].Nothing?) || (last.sleepCut && CutShort(last) == Some(Request))
    case SaveFailed(_) => true
    case _ => false
  }

  // The wait after the stop is under way, from the answer `info` on.
  method AwaitStop(info: Info, start: nat, script: seq<Tick>)
    returns (released: Option<bool>, failure: Option<Failure>, sights: seq<Sight>, seen: seq<Info>,
             ticks: nat, elapsed: int)
    ensures Confirmed(sights, released, failure)
    ensures released == Some(false) && failure.None? ==> RanOut(script, ticks, elapsed, STOP_WAIT)
    ensures failure.Some? && failure.value.SaveFailed? ==>
      sights != [] && SawSaveFail(sights[|sights|-1], failure.value.again)
    ensures released.None? ==> failure.None? && ticks == |script|
    ensures |sights| <= Ceiling(STOP_WAIT, DEFAULT_POLL_INTERVAL) + Changes(seen)
    ensures ticks <= |script| && elapsed <= start + TimeFor(script, ticks, DEFAULT_POLL_INTERVAL)
    ensures failure.Some? ==> StopCause(script, ticks, sights, failure.value)
    ensures Sights(Some(info), script, DEFAULT_POLL_INTERVAL, sights)
    ensures WentOn(Some(info), script, ticks - 1, DEFAULT_POLL_INTERVAL, true, true)
    ensures ticks > 0 && script[ticks - 1].callerEnded ==> failure == Some(Context)
  {
    hide Obs, Sights, WentOn, Remembers;
    NotYetOn(Some(info), script, DEFAULT_POLL_INTERVAL, true, true);
    NoSights(Some(info), script, DEFAULT_POLL_INTERVAL);
    hide Observe, Changed, Changes, Paced, Ceiling, TimeFor;
    NoTime(script, DEFAULT_POLL_INTERVAL);
    sights, seen, failure, ticks := [], [info], None, 0;
    var now: int := start;
    ghost var idle: nat := 0;
    Unhurried(DEFAULT_POLL_INTERVAL, STOP_WAIT);
    PacedLater(0, DEFAULT_POLL_INTERVAL, 0, STOP_WAIT, start);
    for i := 0 to |script|
      invariant ticks == i && failure.None? && seen != []
      invariant forall k | 0 <= k < |sights| :: !Evidence(sights[k])
      invariant |sights| <= idle + Changes(seen)
      invariant now >= 0 && Paced(idle, DEFAULT_POLL_INTERVAL, now, STOP_WAIT)
      invariant idle <= Ceiling(STOP_WAIT, DEFAULT_POLL_INTERVAL)
      invariant now <= start + TimeFor(script, i, DEFAULT_POLL_INTERVAL)
      invariant |sights| == i && Sights(Some(info), script, DEFAULT_POLL_INTERVAL, sights)
      invariant Last(seen) == Remembers(Some(info), sights)
      invariant WentOn(Some(info), script, i, DEFAULT_POLL_INTERVAL, true, true)
      invariant i > 0 ==>
        !script[i - 1].callerEnded && WentOn(Some(info), script, i - 1, DEFAULT_POLL_INTERVAL, true, true)
    {
      var tick := script[i];
      TimeOne(script, i, DEFAULT_POLL_INTERVAL);
      SightsOne(Some(info), script, DEFAULT_POLL_INTERVAL, sights);
      ticks := ticks + 1;
      if tick.callerEnded { return Some(false), Some(Context), sights, seen, ticks, now; }
      if tick.waitEnded || now >= STOP_WAIT { return Some(false), None, sights, seen, ticks, now; }
      var previous := Last(seen);
      var o := Observe(previous, tick, DEFAULT_POLL_INTERVAL);
      Observed(previous, tick, DEFAULT_POLL_INTERVAL);
      PacedStep(idle, DEFAULT_POLL_INTERVAL, now, STOP_WAIT, tick.took, DEFAULT_POLL_INTERVAL);
      sights := sights + [SightOf(o)];
      if o.failure == Some(NotFound) { return Some(true), None, sights, seen, ticks, now + tick.took; }
      if o.failure.Some? {
        if tick.callerEnds { return Some(false), Some(Context), sights, seen, ticks, now + tick.took; }
        if tick.waitEnds || now + tick.took >= STOP_WAIT {
          return Some(false), None, sights, seen, ticks, now + tick.took;
        }
        return Some(false), o.failure, sights, seen, ticks, now + tick.took;
      }
      ghost var news := Changed(previous, o.info.value);
      ChangesOne(seen, o.info.value);
      seen := seen + [o.info.value];
      if ComputeReleased(o.info.value) { return Some(true), None, sights, seen, ticks, now + tick.took; }
      if o.info.value.status == "save_failed" {
        failure := Some(SaveFailed(o.info.value.retryable == Some(true)));
        return Some(false), failure, sights, seen, ticks, now + tick.took;
      }
      var rest := 0;
      if o.delay > 0 {
        if tick.sleepCut { return Some(false), CutShort(tick), sights, seen, ticks, now + tick.took; }
        rest := Max(0, Min(o.delay, STOP_WAIT - now - tick.took)) + tick.overslept;
      }
      WentOnOne(Some(info), script, i, DEFAULT_POLL_INTERVAL, true, true);
      if news {
        PacedLater(idle, DEFAULT_POLL_INTERVAL, now, STOP_WAIT, tick.took + rest);
      } else {
        PacedStep(idle, DEFAULT_POLL_INTERVAL, now, STOP_WAIT, tick.took, rest);
        idle := idle + 1;
      }
      now := now + tick.took + rest;
    }
    released, elapsed := None, now;
  }

  // ---------------------------------------------------------------- release and terminate

  // Changes seen between two answers in a row; an answer after a failed look is not counted.
  function Turns(sights: seq<Sight>): nat {
    if |sights| < 2 then 0
    else Turns(sights[..|sights|-1]) + if Turned(sights[|sights|-2], sights[|sights|-1]) then 1 else 0
  }

  predicate Turned(before: Sight, after: Sight) {
    before.Saw? && after.Saw? && Changed(Some(before.info), after.info)
  }

  lemma TurnsOne(sights: seq<Sight>, s: Sight)
    ensures Turns(sights + [s]) == Turns(sights) + if sights != [] && Turned(sights[|sights|-1], s) then 1 else 0
  {
    hide Turned;
    assert (sights + [s])[..|sights|] == sights;
  }

  // The account of `looks` after which `info` is remembered: of those that were not changes between two
  // answers, at most every second one, and `spare` more, came without a pause, because a failed look
  // makes the next answer news.
  ghost predicate Looked(looks: nat, idle: nat, turns: nat, info: Option<Info>, spare: nat) {
    looks + (if info.None? then 1 else 0) <= 2 * idle + turns + spare
  }

  lemma LookedOnce(history: seq<Sight>, sight: Sight, previous: Option<Info>, looks: nat, idle: nat, spare: nat)
    requires if history == [] then previous.None? else previous == Recall(history[|history|-1])
    requires Looked(looks, idle, Turns(history), previous, spare)
    ensures var news := sight.Saw? && Changed(previous, sight.info);
      Looked(looks + 1, if news then idle else idle + 1, Turns(history + [sight]), Recall(sight), spare)
  {
    hide Turns, Changed;
    TurnsOne(history, sight);
  }

  lemma NoTurns(history: seq<Sight>)
    requires |history| < 2
    ensures Turns(history) == 0
  {
  }

  // A conditional release goes out for one recorded failure only, under the entity tag it was seen with.
  predicate Releasable(info: Info) {
    && info.status != "stopping" && info.reason != "CAPTURE_TIMEOUT" && info.reason != "CaptureTimeout"
    && (info.status == "save_failed" || info.status == "unavailable" || info.status == "failed"
        || info.status == "terminated")
    && info.etag != ""
  }

  // releaseFailedSandbox: any error but a missing record only means looking again, until the context
  // ends, at the latest when the wait's time is up.
  method ReleaseFailed(seen: Info, post: Posted, script: seq<Tick>)
    returns (released: Option<bool>, failure: Option<Failure>, posts: nat, sights: seq<Sight>, ticks: nat, elapsed: int)
    ensures Confirmed(sights, released, failure)
    ensures posts == if Releasable(seen) then 1 else 0
    // A sandbox with no recorded failure that is not already stopping is left alone.
    ensures !Releasable(seen) && seen.status != "stopping" ==>
      released == Some(false) && failure.Some? && sights == []
    // It never leaves the release unconfirmed without saying why, and rightly.
    ensures released == Some(false) ==> failure.Some? && ReleaseCause(seen, post, script, ticks, elapsed, failure.value)
    ensures ticks <= |script| && elapsed <= TimeFor(script, ticks, DEFAULT_POLL_INTERVAL)
    ensures released.None? ==> failure.None? && |sights| == |script|
    // Its looks are what the answers showed, and it goes on only while it may.
    ensures Sights(Some(seen), script, DEFAULT_POLL_INTERVAL, sights)
    ensures WentOn(Some(seen), script, ticks - 1, DEFAULT_POLL_INTERVAL, false, true)
    ensures ticks > 0 && script[ticks - 1].waitEnded ==> failure == Some(Context)
    // Never a spin: two looks per interval, because a failed one makes the next answer news, and one per change.
    ensures |sights| <= 2 * Ceiling(DEFAULT_TERMINATE_WAIT, DEFAULT_POLL_INTERVAL) + Turns([Saw(seen)] + sights)
  {
    hide TimeFor, Sights, WentOn;
    NoTime(script, DEFAULT_POLL_INTERVAL);
    NotYetOn(Some(seen), script, DEFAULT_POLL_INTERVAL, false, true);
    NoSights(Some(seen), script, DEFAULT_POLL_INTERVAL);
    posts, sights, failure, ticks, elapsed := 0, [], None, 0, 0;
    if seen.status != "stopping" {
      if seen.reason == "CAPTURE_TIMEOUT" || seen.reason == "CaptureTimeout" {
        return Some(false), Some(StillCapturing), posts, sights, ticks, elapsed;
      }
      if seen.status != "save_failed" && seen.status != "unavailable" && seen.status != "failed"
         && seen.status != "terminated" {
        return Some(false), Some(NotFailed), posts, sights, ticks, elapsed;
      }
      if seen.etag == "" { return Some(false), Some(NoVersion), posts, sights, ticks, elapsed; }
      posts := 1;
      if !post.Accepted? { return Some(false), Some(Request), posts, sights, ticks, elapsed; }
    }
    released, failure, sights, ticks, elapsed := AwaitRelease(seen, script);
  }

  // The wait's context had ended, at the latest when its time was up, or a sleep was cut.
  predicate Cut(script: seq<Tick>, ticks: nat, elapsed: int) {
    0 < ticks <= |script| &&
    (script[ticks - 1].waitEnded || script[ticks - 1].sleepCut || elapsed >= DEFAULT_TERMINATE_WAIT)
  }

  predicate ReleaseCause(seen: Info, post: Posted, script: seq<Tick>, ticks: nat, elapsed: int, f: Failure) {
    match f
    case StillCapturing => seen.reason == "CAPTURE_TIMEOUT" || seen.reason == "CaptureTimeout"
    case NotFailed => !Releasable(seen)
    case NoVersion => seen.etag == ""
    case Request => Releasable(seen) && !post.Accepted?
    case Context => Cut(script, ticks, elapsed)
    case _ => false
  }

  method AwaitRelease(seen: Info, script: seq<Tick>)
    returns (released: Option<bool>, failure: Option<Failure>, sights: seq<Sight>, ticks: nat, elapsed: int)
    ensures Confirmed(sights, released, failure)
    ensures released == Some(false) ==> failure == Some(Context) && Cut(script, ticks, elapsed)
    ensures ticks <= |script| && elapsed <= TimeFor(script, ticks, DEFAULT_POLL_INTERVAL)
    ensures released.None? ==> failure.None? && |sights| == |script|
    ensures |sights| <= 2 * Ceiling(DEFAULT_TERMINATE_WAIT, DEFAULT_POLL_INTERVAL) + Turns([Saw(seen)] + sights)
    ensures Sights(Some(seen), script, DEFAULT_POLL_INTERVAL, sights)
    ensures WentOn(Some(seen), script, ticks - 1, DEFAULT_POLL_INTERVAL, false, true)
    ensures ticks > 0 && script[ticks - 1].waitEnded ==> failure == Some(Context)
  {
    hide Obs, Sights, WentOn, Remembers;
    NotYetOn(Some(seen), script, DEFAULT_POLL_INTERVAL, false, true);
    NoSights(Some(seen), script, DEFAULT_POLL_INTERVAL);
    hide Observe, Changed, Changes, Paced, Ceiling, Turns, TimeFor;
    NoTime(script, DEFAULT_POLL_INTERVAL);
    sights, failure, ticks := [], None, 0;
    var info := Some(seen);
    var now := 0;
    ghost var idle: nat := 0;
    Unhurried(DEFAULT_POLL_INTERVAL, DEFAULT_TERMINATE_WAIT);
    NoTurns([Saw(seen)] + sights);
    for i := 0 to |script|
      invariant |sights| == i == ticks && failure.None? && now <= TimeFor(script, i, DEFAULT_POLL_INTERVAL)
      invariant forall k | 0 <= k < |sights| :: !Evidence(sights[k])
      invariant info == Recall(([Saw(seen)] + sights)[|sights|]) == Remembers(Some(seen), sights)
      invariant Sights(Some(seen), script, DEFAULT_POLL_INTERVAL, sights)
      invariant WentOn(Some(seen), script, i, DEFAULT_POLL_INTERVAL, false, true)
      invariant i > 0 ==>
        !script[i - 1].waitEnded && WentOn(Some(seen), script, i - 1, DEFAULT_POLL_INTERVAL, false, true)
      invariant Looked(|sights|, idle, Turns([Saw(seen)] + sights), info, 0)
      invariant now >= 0 && Paced(idle, DEFAULT_POLL_INTERVAL, now, DEFAULT_TERMINATE_WAIT)
      invariant idle <= Ceiling(DEFAULT_TERMINATE_WAIT, DEFAULT_POLL_INTERVAL)
    {
      var tick := script[i];
      TimeOne(script, i, DEFAULT_POLL_INTERVAL);
      ticks := ticks + 1;
      if tick.waitEnded || now >= DEFAULT_TERMINATE_WAIT { return Some(false), Some(Context), sights, ticks, now; }
      var o := Observe(info, tick, DEFAULT_POLL_INTERVAL);
      Observed(info, tick, DEFAULT_POLL_INTERVAL);
      SightsOne(Some(seen), script, DEFAULT_POLL_INTERVAL, sights);
      LookedOnce([Saw(seen)] + sights, SightOf(o), info, |sights|, idle, 0);
      PacedStep(idle, DEFAULT_POLL_INTERVAL, now, DEFAULT_TERMINATE_WAIT, tick.took, DEFAULT_POLL_INTERVAL);
      ghost var news := o.info.Some? && Changed(info, o.info.value);
      assert [Saw(seen)] + (sights + [SightOf(o)]) == [Saw(seen)] + sights + [SightOf(o)];
      sights := sights + [SightOf(o)];
      if o.failure == Some(NotFound) || (o.failure.None? && ComputeReleased(o.info.value)) {
        return Some(true), None, sights, ticks, now;
      }
      info := o.info;
      if o.delay > 0 && tick.sleepCut { return Some(false), Some(Context), sights, ticks, now; }
      WentOnOne(Some(seen), script, i, DEFAULT_POLL_INTERVAL, false, true);
      var rest := if o.delay > 0 then o.delay + tick.overslept else 0;
      if news {
        PacedLater(idle, DEFAULT_POLL_INTERVAL, now, DEFAULT_TERMINATE_WAIT, tick.took + rest);
      } else {
        PacedStep(idle, DEFAULT_POLL_INTERVAL, now, DEFAULT_TERMINATE_WAIT, tick.took, rest);
        idle := idle + 1;
      }
      now := now + tick.took + rest;
    }
    released, elapsed := None, now;
  }

  // Terminate: one DELETE, then looking until the record is gone or released. `start` is the DELETE.
  method Terminate(waitTimeout: int, pollInterval: int, destroy: Posted, start: Tick, script: seq<Tick>)
    returns (released: Option<bool>, failure: Option<Failure>, sights: seq<Sight>, ticks: nat, elapsed: int)
    ensures Confirmed(sights, released, failure)
    ensures !destroy.Accepted? ==> sights == [] && released == Some(false) && failure == CutShort(start)
    // Unconfirmed without an error means the wait ran out.
    ensures destroy.Accepted? && released == Some(false) && failure.None? ==>
      RanOut(script, ticks, elapsed, TerminateWait(waitTimeout))
    ensures released.None? ==> failure.None? && |sights| == |script|
    ensures var interval := Interval(pollInterval);
      ticks <= |script| && elapsed <= start.took + TimeFor(script, ticks, interval)
    // An error only if the caller's context ended or a sleep failed.
    ensures destroy.Accepted? && failure.Some? ==>
      0 < ticks <= |script| &&
      var last := script[ticks - 1];
      if failure.value.Context? then last.callerEnded || last.callerEnds
      else last.sleepCut && failure == CutShort(last)
    // Its looks are what the answers showed, and it goes on only while it may.
    ensures var interval := Interval(pollInterval);
      Sights(None, script, interval, sights) && WentOn(None, script, ticks - 1, interval, true, true)
    ensures ticks > 0 && script[ticks - 1].callerEnded ==> failure == Some(Context)
    // Never a spin: two looks per interval, because a failed one makes the next answer news, one for the
    // first answer, and one per change.
    ensures var timeout := TerminateWait(waitTimeout);
      var interval := Interval(pollInterval);
      |sights| <= 2 * Ceiling(timeout, interval) + 1 + Turns(sights)
  {
    hide Ceiling, Turns, TimeFor, RanOut, Interval, TerminateWait, Sights, WentOn;
    if !destroy.Accepted? {
      NotYetOn(None, script, Interval(pollInterval), true, true);
      NoSights(None, script, Interval(pollInterval));
      NoTime(script, Interval(pollInterval));
      NoTurns([]);
      Unhurried(Interval(pollInterval), TerminateWait(waitTimeout));
      return Some(false), CutShort(start), [], 0, start.took;
    }
    released, failure, sights, ticks, elapsed :=
      AwaitGone(TerminateWait(waitTimeout), Interval(pollInterval), start.took, script);
  }

  // Looking, after the DELETE was accepted, until the record is gone or released.
  method AwaitGone(timeout: int, interval: int, start: nat, script: seq<Tick>)
    returns (released: Option<bool>, failure: Option<Failure>, sights: seq<Sight>, ticks: nat, elapsed: int)
    requires interval > 0
    ensures Confirmed(sights, released, failure)
    ensures released == Some(false) && failure.None? ==> RanOut(script, ticks, elapsed, timeout)
    ensures released.None? ==> failure.None? && |sights| == |script|
    ensures ticks <= |script| && elapsed <= start + TimeFor(script, ticks, interval)
    ensures failure.Some? ==>
      0 < ticks <= |script| &&
      var last := script[ticks - 1];
      if failure.value.Context? then last.callerEnded || last.callerEnds
      else last.sleepCut && failure == CutShort(last)
    ensures |sights| <= 2 * Ceiling(timeout, interval) + 1 + Turns(sights)
    ensures Sights(None, script, interval, sights) && WentOn(None, script, ticks - 1, interval, true, true)
    ensures ticks > 0 && script[ticks - 1].callerEnded ==> failure == Some(Context)
  {
    hide Obs, Sights, WentOn, Remembers;
    NotYetOn(None, script, interval, true, true);
    NoSights(None, script, interval);
    hide Observe, Changed, Changes, Paced, Ceiling, Turns, TimeFor;
    NoTime(script, interval);
    sights, failure, ticks := [], None, 0;
    var now: int := start;
    ghost var idle: nat := 0;
    Unhurried(interval, timeout);
    PacedLater(0, interval, 0, timeout, start);
    NoTurns(sights);
    var info: Option<Info> := None;
    for i := 0 to |script|
      invariant |sights| == ticks == i && failure.None?
      invariant forall k | 0 <= k < |sights| :: !Evidence(sights[k])
      invariant if sights == [] then info.None? else info == Recall(sights[|sights|-1])
      invariant info == Remembers(None, sights) && Sights(None, script, interval, sights)
      invariant WentOn(None, script, i, interval, true, true)
      invariant i > 0 ==> !script[i - 1].callerEnded && WentOn(None, script, i - 1, interval, true, true)
      invariant Looked(|sights|, idle, Turns(sights), info, 1)
      invariant now >= 0 && Paced(idle, interval, now, timeout) && idle <= Ceiling(timeout, interval)
      invariant now <= start + TimeFor(script, i, interval)
    {
      var tick := script[i];
      TimeOne(script, i, interval);
      ticks := ticks + 1;
      if tick.callerEnded { return Some(false), Some(Context), sights, ticks, now; }
      if now >= timeout || tick.waitEnded { return Some(false), None, sights, ticks, now; }
      var o := Observe(info, tick, interval);
      Observed(info, tick, interval);
      SightsOne(None, script, interval, sights);
      LookedOnce(sights, SightOf(o), info, |sights|, idle, 1);
      PacedStep(idle, interval, now, timeout, tick.took, interval);
      ghost var news := o.info.Some? && Changed(info, o.info.value);
      sights := sights + [SightOf(o)];
      if o.failure == Some(NotFound) || (o.failure.None? && ComputeReleased(o.info.value)) {
        return Some(true), None, sights, ticks, now + tick.took;
      }
      info := o.info;
      if now + tick.took >= timeout { return Some(false), None, sights, ticks, now + tick.took; }
      var rest := 0;
      if o.delay > 0 {
        if tick.sleepCut { return Some(false), CutShort(tick), sights, ticks, now + tick.took; }
        rest := Min(o.delay, timeout - now - tick.took) + tick.overslept;
      }
      WentOnOne(None, script, i, interval, true, true);
      if news {
        PacedLater(idle, interval, now, timeout, tick.took + rest);
      } else {
        PacedStep(idle, interval, now, timeout, tick.took, rest);
        idle := idle + 1;
      }
      now := now + tick.took + rest;
    }
    released, elapsed := None, now;
  }
}
