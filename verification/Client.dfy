// Start, Recover and Create as the client runs them (client.go, computer.go): a straight-line
// program of requests whose every effect is a step of the system in Fencing, with anything at all
// done by everybody else before each of them.
module Client {
  import opened Common
  import opened Fencing

  // Whether call c itself decides on a step. A mint whose response it never sees reaches Portal
  // whenever the network pleases.
  predicate By(step: Step, c: nat) {
    match step
    case Release(_) => false
    case Unname => false
    case Mint(d, _, _, _, delivered) => d == c && delivered
    case _ => step.call == c
  }

  // A phase as the call itself knows it: without whether Portal granted a mint or a sandbox was made
  // that it never heard of.
  function AsKnown(phase: Phase): Phase {
    match phase
    case Provisioned(expected, s, _) => Provisioned(expected, s, false)
    case Cleaning(own) => Cleaning(own.(lost := false))
    case Failed(Some(own)) => Failed(Some(own.(lost := false)))
    case Unmade(_) => Failed(None)
    case _ => phase
  }

  // The shared world as the requests of one client reach it, and the run that led there.
  class Network {
    var world: World
    ghost var steps: seq<Step>

    ghost predicate Valid() reads this { IsRun(steps) && After(steps) == world }

    constructor ()
      ensures Valid() && world == Init && steps == []
    {
      world, steps := Init, [];
    }

    method Do(step: Step)
      requires Valid() && Enabled(world, step)
      modifies this
      ensures Valid() && world == Apply(old(world), step) && steps == old(steps) + [step]
    {
      var _ := Extend(steps, step);
      world := Apply(world, step);
      steps := steps + [step];
    }

    // Everybody else's turn: of the proposed steps, those that are possible and not call c's to take.
    method Others(c: nat, proposed: seq<Step>)
      requires Valid()
      modifies this
      ensures Valid() && Later(c, old(world), world) && old(steps) <= steps
      ensures forall i | |old(steps)| <= i < |steps| :: !By(steps[i], c)
    {
      hide Run, Enabled, Apply;
      for k := 0 to |proposed|
        invariant Valid() && Later(c, old(world), world) && old(steps) <= steps
        invariant forall i | |old(steps)| <= i < |steps| :: !By(steps[i], c)
      {
        if Enabled(world, proposed[k]) && !By(proposed[k], c) {
          StepOfOther(world, proposed[k], c);
          Do(proposed[k]);
        }
      }
    }
  }

  // What call c can rely on while others act: its own phase, and that released stays released.
  ghost predicate Later(c: nat, w: World, w': World) {
    && (c in w.calls <==> c in w'.calls)
    && (c in w.calls ==> AsKnown(w'.calls[c]) == AsKnown(w.calls[c]))
    && w.released <= w'.released && w.created <= w'.created
  }

  lemma StepOfOther(w: World, step: Step, c: nat)
    requires Enabled(w, step) && !By(step, c)
    ensures Later(c, w, Apply(w, step))
  {
  }

  // One request: what others do before it, and whether it fails.
  datatype Trip = Trip(others: seq<Step>, fails: bool)

  // One mint request: the pod identity just fetched, the revision Portal would choose, and whether
  // the response arrives.
  datatype Minting = Minting(others: seq<Step>, pod: nat, boot: nat, next: nat, delivered: bool)

  datatype AttachScript = AttachScript(
    valid: bool,                 // options and capture keypairs are in order
    create: Trip, sandbox: nat,  // the id the control plane would give
    created: bool,               // whether a create that fails made the sandbox all the same
    ready: Trip, mints: seq<Minting>, bind: Trip, kill: Trip)

  // `told` and `confirmed`: whether the control plane shows a release that has happened.
  datatype StartScript = StartScript(
    valid: bool, read: Trip, get: Trip, told: bool, stopping: bool, release: Trip, confirmed: bool,
    attach: AttachScript)

  // AttachAuthorizationCommittedError carries the revision and the sandbox.
  datatype Committed = Committed(revision: nat, sandbox: nat)

  // Why a call ended in an error: bad arguments, an unreadable binding, a sandbox whose state could not
  // be read, one that is retained, one that could not be released or not confirmed so, or the attach.
  datatype Reason = Invalid | Unread | Unobserved | Retained(sandbox: nat) | Unreleased | Unconfirmed | Unattached

  datatype Result = Ready(computer: Computer) | Error(reason: Reason, committed: Option<Committed>)

  // What a call met on its way: the binding it froze, whether its named sandbox was shown or confirmed
  // released, whether the create gave it a sandbox, and what Portal answered its first mint whose
  // response arrived.
  datatype Course = Course(revision: nat, named: Option<nat>, shown: bool, confirmed: bool, made: bool,
                           answer: Option<MintReply>)

  // A receipt for a revision above the frozen one.
  predicate Advances(answer: Option<MintReply>, expected: nat) {
    answer.Some? && answer.value.Receipt? && answer.value.grant.revision > expected
  }

  // Portal gave this answer to mint m of call c, at step i of the run.
  ghost predicate AnsweredAt(steps: seq<Step>, c: nat, expected: nat, own: nat, m: Minting, i: nat, answer: MintReply) {
    && i < |steps| && Run(steps[..i]).Some?
    && steps[i].Mint? && steps[i].call == c && steps[i].pod == m.pod && steps[i].boot == m.boot && steps[i].delivered
    && answer == PortalMint(After(steps[..i]).portal, MintKey(own, m.pod, m.boot), expected, steps[i].next)
  }

  // The first mint whose response arrives, if any does, was answered so.
  ghost predicate Answered(steps: seq<Step>, c: nat, expected: nat, own: nat, mints: seq<Minting>,
                           answer: Option<MintReply>) {
    if answer.None? then forall k | 0 <= k < |mints| :: !mints[k].delivered
    else exists k: nat, i: nat ::
      FirstDelivered(mints, k) && AnsweredAt(steps, c, expected, own, mints[k], i, answer.value)
  }

  predicate FirstDelivered(mints: seq<Minting>, k: nat) {
    k < |mints| && mints[k].delivered && forall j | 0 <= j < k :: !mints[j].delivered
  }

  lemma AnsweredLater(steps: seq<Step>, more: seq<Step>, c: nat, expected: nat, own: nat, mints: seq<Minting>,
                      answer: Option<MintReply>)
    requires steps <= more && Answered(steps, c, expected, own, mints, answer)
    ensures Answered(more, c, expected, own, mints, answer)
  {
    hide Run;
    if answer.Some? {
      var k: nat, i: nat :| FirstDelivered(mints, k) && AnsweredAt(steps, c, expected, own, mints[k], i, answer.value);
      assert more[..i] == steps[..i] && more[i] == steps[i];
      assert AnsweredAt(more, c, expected, own, mints[k], i, answer.value);
    }
  }

  // When an attach succeeds: every request of it did, and Portal granted an advancing receipt.
  predicate AttachOk(script: AttachScript, expected: nat, course: Course) {
    course.made && !script.ready.fails && Advances(course.answer, expected) && !script.bind.fails
  }

  // A create that was answered gave the call its sandbox, unless the id was somebody else's.
  predicate MadeAsTold(script: AttachScript, made: bool, created: set<nat>) {
    && (made ==> script.valid && !script.create.fails)
    && (script.valid && !script.create.fails && !made ==> script.sandbox in created)
  }

  // What the attach of call c met is what its requests were answered.
  ghost predicate AttachMet(net: seq<Step>, c: nat, expected: nat, script: AttachScript, course: Course,
                            created: set<nat>) {
    && MadeAsTold(script, course.made, created)
    && (course.made && !script.ready.fails ==>
          Answered(net, c, expected, script.sandbox, script.mints, course.answer))
  }

  // The revision and sandbox an authorization would be reported with.
  function ReportOf(g: Option<Grant>): Option<Committed> {
    if g.None? then None else Some(Committed(g.value.revision, g.value.sandbox))
  }

  class Computer {
    var bindingRevision: nat
    var lastAuthorized: Option<nat>
    var sandbox: Option<nat>

    constructor (revision: nat)
      ensures bindingRevision == revision && lastAuthorized == None && sandbox == None
    {
      bindingRevision, lastAuthorized, sandbox := revision, None, None;
    }

    // The fields agree with the authorization this call holds, if any.
    ghost predicate Records(g: Option<Grant>, expected: nat)
      reads this
    {
      if g.None? then bindingRevision == expected && lastAuthorized == None
      else bindingRevision == g.value.revision > expected && lastAuthorized == Some(g.value.sandbox)
    }

    // Mint until a response arrives: an authorization, or a refusal that ends the attach. A lost
    // response is retried, and may have been granted.
    method Authorize(net: Network, c: nat, own: nat, mints: seq<Minting>) returns (ok: bool, answer: Option<MintReply>)
      requires net.Valid() && Owning(net.world, c, bindingRevision, own)
      requires lastAuthorized == None
      modifies this, net
      ensures net.Valid() && old(net.steps) <= net.steps && c in net.world.calls && sandbox == old(sandbox)
      ensures Answered(net.steps, c, old(bindingRevision), own, mints, answer)
      ensures ok <==> Advances(answer, old(bindingRevision))
      ensures ok ==> net.world.calls[c].Authorized? && net.world.calls[c].grant.sandbox == own
                     && Records(Some(net.world.calls[c].grant), old(bindingRevision))
      ensures !ok ==> Records(None, old(bindingRevision))
                      && (net.world.calls[c].Cleaning? ==> net.world.calls[c].own.committed == None)
                      && (net.world.calls[c].Provisioned? || net.world.calls[c].Cleaning?)
    {
      hide Run, Answered;
      for k := 0 to |mints|
        invariant forall j | 0 <= j < k :: !mints[j].delivered
        invariant net.Valid() && old(net.steps) <= net.steps && Owning(net.world, c, bindingRevision, own)
        invariant Records(None, old(bindingRevision)) && sandbox == old(sandbox)
      {
        var m := mints[k];
        net.Others(c, m.others);
        var next := if m.next > net.world.portal.revision then m.next else net.world.portal.revision + 1;
        var key := MintKey(own, m.pod, m.boot);
        var reply := PortalMint(net.world.portal, key, bindingRevision, next);
        RunKeepsInv(net.steps);
        GrantsOwn(net.world, key, bindingRevision, next);
        ghost var before := net.steps;
        net.Do(Mint(c, m.pod, m.boot, next, m.delivered));
        if m.delivered {
          JustAnswered(before, net.steps, c, bindingRevision, own, mints, k, reply);
          if reply.Conflict? || reply.grant.revision <= bindingRevision { return false, Some(reply); }
          bindingRevision, lastAuthorized := reply.grant.revision, Some(own);
          return true, Some(reply);
        }
      }
      NeverAnswered(net.steps, c, bindingRevision, own, mints);
      return false, None;
    }

    // Provision, wait, authorize and bind; on any failure after provisioning, kill the sandbox.
    method Attach(net: Network, c: nat, script: AttachScript) returns (ok: bool, made: bool, answer: Option<MintReply>)
      requires net.Valid() && PhaseOf(net.world, c) == Some(Cleared(bindingRevision))
      requires lastAuthorized == None && sandbox == None
      modifies this, net
      ensures net.Valid() && old(net.steps) <= net.steps && c in net.world.calls
      ensures var course := Course(old(bindingRevision), None, false, false, made, answer);
        && AttachMet(net.steps, c, old(bindingRevision), script, course, net.world.created)
        && (ok <==> AttachOk(script, old(bindingRevision), course))
      ensures ok ==> net.world.calls[c].Attached? && sandbox == Some(net.world.calls[c].grant.sandbox)
                     && Records(Some(net.world.calls[c].grant), old(bindingRevision))
      ensures !ok ==> Over(net.world.calls[c]) && sandbox == None
                      && Records(Known(net.world.calls[c]), old(bindingRevision))
    {
      hide Run, ApplyMint, Answered;
      var own := script.sandbox;
      answer := None;
      made := CreateSandbox(net, c, bindingRevision, script);
      if !made { return false, made, answer; }      // nothing is known of it, so nothing is deferred
      net.Others(c, script.ready.others);
      var authorized := false;
      if !script.ready.fails { authorized, answer := Authorize(net, c, own, script.mints); }
      ghost var minted := net.steps;
      net.Others(c, script.bind.others);
      ok := authorized && !script.bind.fails;
      if ok {
        net.Do(BindSucceeds(c));
        sandbox := Some(own);
      } else {
        CleanUp(net, c, script.kill.others);
      }
      if !script.ready.fails {
        AnsweredLater(minted, net.steps, c, old(bindingRevision), own, script.mints, answer);
      }
    }

    // What the failed attach's error says about Portal.
    method CommittedError(initial: nat) returns (committed: Option<Committed>)
      ensures forall g | Records(g, initial) :: committed == ReportOf(g)
    {
      if bindingRevision <= initial || lastAuthorized == None { return None; }
      return Some(Committed(bindingRevision, lastAuthorized.value));
    }
  }

  // The create request: the call has a sandbox of its own, or ends without one it knows of.
  method CreateSandbox(net: Network, c: nat, revision: nat, script: AttachScript) returns (made: bool)
    requires net.Valid() && PhaseOf(net.world, c) == Some(Cleared(revision))
    modifies net
    ensures net.Valid() && old(net.steps) <= net.steps && c in net.world.calls
    ensures MadeAsTold(script, made, net.world.created)
    ensures made ==> Owning(net.world, c, revision, script.sandbox)
    ensures !made ==> net.world.calls[c] == Failed(None) || net.world.calls[c] == Unmade(revision)
  {
    hide Run, ApplyMint;
    net.Others(c, script.create.others);
    if !script.valid || script.sandbox in net.world.created || (script.create.fails && !script.created) {
      net.Do(GiveUp(c));
      return false;
    }
    net.Do(Provision(c, script.sandbox, !script.create.fails));
    made := !script.create.fails;
  }

  // The deferred best-effort DELETE of the sandbox of an attach that failed.
  method CleanUp(net: Network, c: nat, others: seq<Step>)
    requires net.Valid() && c in net.world.calls
    requires net.world.calls[c].Provisioned? || net.world.calls[c].Authorized? || net.world.calls[c].Cleaning?
    modifies net
    ensures net.Valid() && old(net.steps) <= net.steps && c in net.world.calls
    ensures net.world.calls[c].Failed? && Known(net.world.calls[c]) == Known(old(net.world).calls[c])
  {
    hide Run, ApplyMint;
    if !net.world.calls[c].Cleaning? { net.Do(GiveUp(c)); }
    net.Others(c, others);
    net.Do(KillOwn(c));
  }

  // The authorization a call holds or held when it failed.
  function Known(phase: Phase): Option<Grant> {
    match phase
    case Authorized(g) => Some(g)
    case Attached(g) => Some(g)
    case Cleaning(own) => own.committed
    case Failed(Some(own)) => own.committed
    case _ => None
  }

  // The call has its own sandbox and no authorization yet.
  predicate Owning(w: World, c: nat, expected: nat, own: nat) {
    c in w.calls && w.calls[c].Provisioned? && w.calls[c].expected == expected && w.calls[c].sandbox == own
  }

  lemma JustAnswered(before: seq<Step>, steps: seq<Step>, c: nat, expected: nat, own: nat, mints: seq<Minting>, k: nat,
                     answer: MintReply)
    requires FirstDelivered(mints, k) && IsRun(before) && |steps| == |before| + 1 && before <= steps
    requires AnsweredAt(steps, c, expected, own, mints[k], |before|, answer)
    ensures Answered(steps, c, expected, own, mints, Some(answer))
  {
  }

  lemma NeverAnswered(steps: seq<Step>, c: nat, expected: nat, own: nat, mints: seq<Minting>)
    requires forall k | 0 <= k < |mints| :: !mints[k].delivered
    ensures Answered(steps, c, expected, own, mints, None)
  {
  }

  lemma GrantsOwn(w: World, key: MintKey, expected: nat, next: nat)
    requires Inv(w)
    ensures var reply := PortalMint(w.portal, key, expected, next);
      reply.Receipt? ==> reply.grant.sandbox == key.sandbox
  {
  }

  // Why a start does not get as far as its attach, by what it met; Unattached if it does.
  function Why(script: StartScript, recovering: bool, course: Course): Reason {
    if !script.valid then Invalid
    else if script.read.fails then Unread
    else if course.named.None? then Unattached
    else if script.get.fails then Unobserved
    else if course.shown then Unattached
    else if !recovering && !script.stopping then Retained(course.named.value)
    else if script.release.fails then Unreleased
    else if !course.confirmed then Unconfirmed
    else Unattached
  }

  // The binding the call read was Portal's when it read it.
  ghost predicate BindingRead(steps: seq<Step>, c: nat, course: Course) {
    exists i: nat ::
      && i < |steps| && steps[i] == ReadBinding(c) && Run(steps[..i]).Some?
      && After(steps[..i]).portal.revision == course.revision && After(steps[..i]).portal.sandbox == course.named
  }

  // A release is shown or confirmed only if it has happened, and one that had happened before the call is,
  // whenever the control plane tells.
  predicate Evidenced(script: StartScript, recovering: bool, course: Course, before: set<nat>, after: set<nat>) {
    course.named.Some? ==>
      var s := course.named.value;
      && (course.shown ==> script.told && s in after)
      && (course.confirmed ==> script.confirmed && s in after)
      && (script.told && !script.get.fails && s in before ==> course.shown)
      && (!script.get.fails && !course.shown && (recovering || script.stopping) && !script.release.fails ==>
            (script.confirmed && s in before ==> course.confirmed))
  }

  method StartComputer(net: Network, c: nat, recovering: bool, script: StartScript) returns (r: Result, course: Course)
    requires net.Valid() && c !in net.world.calls
    modifies net
    ensures net.Valid() && old(net.steps) <= net.steps && c in net.world.calls
    ensures Reported(net.world.calls[c], r)
    ensures r.Ready? ==> fresh(r.computer) && Agrees(net.world.calls[c], r.computer)
    // It succeeds exactly if nothing stands in the way of its attach and the attach succeeds.
    ensures r.Ready? <==>
      Why(script, recovering, course) == Unattached && AttachOk(script.attach, course.revision, course)
    ensures r.Error? ==> r.reason == Why(script, recovering, course)
    // Refused before the attach, the call owns nothing.
    ensures Why(script, recovering, course) != Unattached ==> net.world.calls[c] == Failed(None)
    // What it met is what its requests were answered.
    ensures script.valid && !script.read.fails ==>
      && BindingRead(net.steps, c, course)
      && Evidenced(script, recovering, course, old(net.world.released), net.world.released)
    ensures Why(script, recovering, course) == Unattached ==>
      AttachMet(net.steps, c, course.revision, script.attach, course, net.world.created)
    ensures |LiveAuthorized(net.world)| <= 1
  {
    hide Run, ApplyMint, LiveAuthorized, AttachMet, BindingRead, AttachOk;
    course := Course(0, None, false, false, false, None);
    net.Do(Start(c));
    if !script.valid {
      r := Abort(net, c, Invalid);
      return;
    }
    net.Others(c, script.read.others);
    if script.read.fails {
      r := Abort(net, c, Unread);
      return;
    }
    var revision, named := net.world.portal.revision, net.world.portal.sandbox;
    ghost var before := net.steps;
    net.Do(ReadBinding(c));
    r, course := Proceed(net, c, revision, named, recovering, script);
    JustRead(before, net.steps, c, course);
  }

  // The rest of a start, once the binding is frozen: evidence of release, then the attach.
  method Proceed(net: Network, c: nat, revision: nat, named: Option<nat>, recovering: bool, script: StartScript)
    returns (r: Result, course: Course)
    requires net.Valid() && PhaseOf(net.world, c) == Some(Checking(revision, named))
    requires script.valid && !script.read.fails
    modifies net
    ensures net.Valid() && old(net.steps) <= net.steps && c in net.world.calls
    ensures course.revision == revision && course.named == named
    ensures Reported(net.world.calls[c], r)
    ensures r.Ready? ==> fresh(r.computer) && Agrees(net.world.calls[c], r.computer)
    ensures r.Ready? <==>
      Why(script, recovering, course) == Unattached && AttachOk(script.attach, revision, course)
    ensures r.Error? ==> r.reason == Why(script, recovering, course)
    ensures Why(script, recovering, course) != Unattached ==> net.world.calls[c] == Failed(None)
    ensures Evidenced(script, recovering, course, old(net.world.released), net.world.released)
    ensures Why(script, recovering, course) == Unattached ==>
      AttachMet(net.steps, c, revision, script.attach, course, net.world.created)
    ensures |LiveAuthorized(net.world)| <= 1
  {
    hide Run, ApplyMint, LiveAuthorized, AttachMet, AttachOk;
    course := Course(revision, named, false, false, false, None);
    var refused := None;
    if named.Some? {
      var shown, confirmed;
      refused, shown, confirmed := SeekRelease(net, c, revision, named.value, recovering, script);
      course := course.(shown := shown, confirmed := confirmed);
    }
    ghost var sought := net.steps;
    if refused.Some? {
      r := Abort(net, c, refused.value);
    } else {
      net.Do(SeeReleased(c));
      var made, answer;
      r, made, answer := AttachNew(net, c, revision, script.attach);
      SameMeeting(net.steps, c, revision, script.attach, course, made, answer, net.world.created);
      course := course.(made := made, answer := answer);
    }
    ReleasedGrows(sought, net.steps);
  }

  // Along a run what is released stays so.
  lemma {:induction false} ReleasedGrows(steps: seq<Step>, more: seq<Step>)
    requires IsRun(steps) && IsRun(more) && steps <= more
    ensures After(steps).released <= After(more).released
    decreases |more|
  {
    hide Apply, Enabled;
    if |steps| < |more| {
      var front := more[..|more|-1];
      ReleasedGrows(steps, front);
      StepReleases(After(front), more[|more|-1]);
    } else {
      assert steps == more;
    }
  }

  lemma StepReleases(w: World, step: Step)
    requires Enabled(w, step)
    ensures w.released <= Apply(w, step).released
  {
  }

  lemma JustRead(before: seq<Step>, steps: seq<Step>, c: nat, course: Course)
    requires IsRun(before) && before + [ReadBinding(c)] <= steps
    requires After(before).portal.revision == course.revision && After(before).portal.sandbox == course.named
    ensures BindingRead(steps, c, course)
  {
    hide Run;
    assert steps[..|before|] == before && steps[|before|] == ReadBinding(c);
  }

  // The evidence a call needs about the sandbox its frozen binding names: it is released already, or a
  // failed or stopping one is seen released now. Otherwise, why not.
  method SeekRelease(net: Network, c: nat, revision: nat, named: nat, recovering: bool, script: StartScript)
    returns (refused: Option<Reason>, shown: bool, confirmed: bool)
    requires net.Valid() && PhaseOf(net.world, c) == Some(Checking(revision, Some(named)))
    requires script.valid && !script.read.fails
    modifies net
    ensures net.Valid() && old(net.steps) <= net.steps && old(net.world.released) <= net.world.released
    ensures PhaseOf(net.world, c) == Some(Checking(revision, Some(named)))
    ensures refused.None? ==> named in net.world.released
    ensures var course := Course(revision, Some(named), shown, confirmed, false, None);
      && Evidenced(script, recovering, course, old(net.world.released), net.world.released)
      && (if refused.Some? then Why(script, recovering, course) == refused.value != Unattached
          else Why(script, recovering, course) == Unattached)
  {
    hide Run;
    shown, confirmed := false, false;
    net.Others(c, script.get.others);
    if script.get.fails { return Some(Unobserved), shown, confirmed; }
    shown := script.told && named in net.world.released;
    if shown { return None, shown, confirmed; }
    if !recovering && !script.stopping { return Some(Retained(named)), shown, confirmed; }
    net.Others(c, script.release.others);
    if script.release.fails { return Some(Unreleased), shown, confirmed; }
    confirmed := script.confirmed && named in net.world.released;
    refused := if confirmed then None else Some(Unconfirmed);
  }

  method CreateComputer(net: Network, c: nat, script: AttachScript) returns (r: Result, course: Course)
    requires net.Valid() && c !in net.world.calls
    modifies net
    ensures net.Valid() && old(net.steps) <= net.steps && c in net.world.calls
    ensures Reported(net.world.calls[c], r)
    ensures r.Ready? ==> fresh(r.computer) && Agrees(net.world.calls[c], r.computer)
    ensures r.Ready? <==> AttachOk(script, 0, course)
    ensures AttachMet(net.steps, c, 0, script, course, net.world.created)
    ensures |LiveAuthorized(net.world)| <= 1
  {
    hide Run, ApplyMint, LiveAuthorized, AttachMet;
    net.Do(Create(c));
    var made, answer;
    r, made, answer := AttachNew(net, c, 0, script);
    course := Course(0, None, false, false, made, answer);
  }

  // A Computer is returned exactly when the call is attached; an error reports exactly the
  // authorization the call is known to have committed.
  ghost predicate Reported(phase: Phase, r: Result) {
    match r
    case Ready(_) => phase.Attached?
    case Error(_, committed) => Over(phase) && committed == ReportOf(Known(phase))
  }

  ghost predicate Agrees(phase: Phase, computer: Computer)
    reads computer
  {
    && phase.Attached? && computer.sandbox == Some(phase.grant.sandbox)
    && computer.bindingRevision == phase.grant.revision && computer.lastAuthorized == computer.sandbox
  }

  method Abort(net: Network, c: nat, reason: Reason) returns (r: Result)
    requires net.Valid() && c in net.world.calls && (net.world.calls[c].Reading? || net.world.calls[c].Checking?)
    modifies net
    ensures net.Valid() && old(net.steps) <= net.steps && c in net.world.calls
    ensures r == Error(reason, None) && net.world.calls[c] == Failed(None)
    ensures |LiveAuthorized(net.world)| <= 1
  {
    hide Run, ApplyMint, LiveAuthorized;
    net.Do(GiveUp(c));
    OneLiveAuthorization(net.steps);
    r := Error(reason, None);
  }

  method AttachNew(net: Network, c: nat, revision: nat, script: AttachScript)
    returns (r: Result, made: bool, answer: Option<MintReply>)
    requires net.Valid() && PhaseOf(net.world, c) == Some(Cleared(revision))
    modifies net
    ensures net.Valid() && old(net.steps) <= net.steps && c in net.world.calls
    ensures Reported(net.world.calls[c], r)
    ensures r.Ready? ==> fresh(r.computer) && Agrees(net.world.calls[c], r.computer)
    ensures r.Error? ==> r.reason == Unattached
    ensures var course := Course(revision, None, false, false, made, answer);
      && AttachMet(net.steps, c, revision, script, course, net.world.created)
      && (r.Ready? <==> AttachOk(script, revision, course))
    ensures |LiveAuthorized(net.world)| <= 1
  {
    hide Run, Apply, Enabled, LiveAuthorized, AttachMet, AttachOk;
    var computer := new Computer(revision);
    var ok;
    ok, made, answer := computer.Attach(net, c, script);
    OneLiveAuthorization(net.steps);
    if ok {
      r := Ready(computer);
    } else {
      var committed := computer.CommittedError(revision);
      r := Error(Unattached, committed);
    }
  }

  // The attach met what it met, however the call came to it.
  lemma SameMeeting(steps: seq<Step>, c: nat, revision: nat, script: AttachScript, course: Course, made: bool,
                    answer: Option<MintReply>, created: set<nat>)
    ensures var plain := Course(revision, None, false, false, made, answer);
      var full := course.(made := made, answer := answer);
      && (AttachMet(steps, c, revision, script, plain, created) <==>
          AttachMet(steps, c, revision, script, full, created))
      && (AttachOk(script, revision, plain) <==> AttachOk(script, revision, full))
  {
    hide Answered;
  }

  // A call that ends in an error has asked for its own sandbox to be killed, if it made one and the
  // create response reached it; without that response it has not (Fencing.LostCreateLeavesOrphan).
  lemma {:induction false} FailedCallsClean(steps: seq<Step>, c: nat, own: nat)
    requires IsRun(steps) && Provision(c, own, true) in steps
    ensures c in After(steps).calls
    ensures var p := After(steps).calls[c];
      && Owned(p) == Some(own)
      && (p.Failed? ==> KillOwn(c) in steps)
  {
    var before, last := steps[..|steps|-1], steps[|steps|-1];
    assert steps == before + [last];
    RunKeepsInv(before);
    if Provision(c, own, true) in before {
      FailedCallsClean(before, c, own);
      OwnedKept(After(before), last, c);
    }
  }

  // A call that knows of its sandbox keeps to it, and fails only by killing it.
  lemma OwnedKept(w: World, step: Step, c: nat)
    requires PortalOk(w) && Enabled(w, step) && c in w.calls && Owned(w.calls[c]).Some?
    ensures c in Apply(w, step).calls && Owned(Apply(w, step).calls[c]) == Owned(w.calls[c])
    ensures Apply(w, step).calls[c].Failed? && !w.calls[c].Failed? ==> step == KillOwn(c)
  {
  }

  // A call whose create response was lost has not: it knows of no sandbox and kills none.
  lemma {:induction false} OrphanNotKilled(steps: seq<Step>, c: nat, own: nat)
    requires IsRun(steps) && Provision(c, own, false) in steps
    ensures c in After(steps).calls && After(steps).calls[c] == Failed(None)
    ensures KillOwn(c) !in steps
  {
    hide Apply, Enabled;
    var before, last := steps[..|steps|-1], steps[|steps|-1];
    assert steps == before + [last];
    if Provision(c, own, false) in before {
      OrphanNotKilled(before, c, own);
      NothingLeft(After(before), last, c);
    } else {
      assert last == Provision(c, own, false);
      LostCreate(After(before), c, own);
      if KillOwn(c) in before { KillEnds(before, c); }
    }
  }

  lemma LostCreate(w: World, c: nat, own: nat)
    requires Enabled(w, Provision(c, own, false))
    ensures PhaseOf(Apply(w, Provision(c, own, false)), c) == Some(Failed(None))
    ensures c in w.calls && !w.calls[c].Failed?
  {
  }

  lemma NothingLeft(w: World, step: Step, c: nat)
    requires Enabled(w, step) && PhaseOf(w, c) == Some(Failed(None))
    ensures PhaseOf(Apply(w, step), c) == Some(Failed(None)) && step != KillOwn(c)
  {
  }

  // A call that killed its sandbox has failed.
  lemma {:induction false} KillEnds(steps: seq<Step>, c: nat)
    requires IsRun(steps) && KillOwn(c) in steps
    ensures c in After(steps).calls && After(steps).calls[c].Failed?
  {
    var before, last := steps[..|steps|-1], steps[|steps|-1];
    assert steps == before + [last];
    if KillOwn(c) in before { KillEnds(before, c); }
  }
}
