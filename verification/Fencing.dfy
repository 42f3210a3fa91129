// Start, Recover and Create on one Computer by any number of backends at once.
//
// A call freezes the Portal binding revision it reads, needs evidence that the sandbox named
// there is released, provisions a sandbox of its own, and asks Portal to move the binding by
// compare-and-swap. Portal, the control plane and the network are the environment: they act
// through steps of their own, and every step of every call may interleave with every other.
module Fencing {
  import opened Common

  // One authorization Portal committed: revision `revision` names `sandbox`, and replaced
  // revision `expected`.
  datatype Grant = Grant(expected: nat, revision: nat, sandbox: nat)

  // The Idempotency-Key of a mint: one Computer, so only the sandbox and pod identity vary.
  datatype MintKey = MintKey(sandbox: nat, pod: nat, boot: nat)

  datatype Portal = Portal(revision: nat, sandbox: Option<nat>, receipts: map<MintKey, Grant>)

  // What a failing call answers for: its sandbox, the authorization it knows of, and whether Portal
  // granted one it does not know of, because the response never arrived.
  datatype Own = Own(expected: nat, sandbox: nat, committed: Option<Grant>, lost: bool)

  // How far one call has got. `lost` is as in Own.
  datatype Phase =
    | Reading                                                // before CurrentBinding
    | Checking(expected: nat, named: Option<nat>)              // binding read, evidence wanted
    | Cleared(expected: nat)                                 // free to provision
    | Provisioned(expected: nat, sandbox: nat, lost: bool)   // created, minting
    | Authorized(grant: Grant)                               // receipt held, binding
    | Attached(grant: Grant)                                 // returned to the caller
    | Cleaning(own: Own)                                     // failed, own sandbox to kill
    | Failed(owned: Option<Own>)                             // error returned; None: no sandbox it knows of
    | Unmade(expected: nat)                                  // the same, but a create may still be under way

  datatype World = World(
    portal: Portal,
    log: seq<Grant>,          // every authorization, in the order Portal committed them
    created: set<nat>,        // sandboxes ever provisioned
    released: set<nat>,       // sandboxes whose compute is released or whose record is gone
    calls: map<nat, Phase>)

  datatype Step =
    | Start(call: nat)                 // Start or Recover begins
    | Create(call: nat)                // Create at revision 0: no binding is read
    | ReadBinding(call: nat)
    | SeeReleased(call: nat)           // GET 404, or terminated with COMPUTE_RELEASED
    | Provision(call: nat, sandbox: nat, delivered: bool)      // created, and whether the call learns of it
    | Mint(call: nat, pod: nat, boot: nat, next: nat, delivered: bool)
    | BindSucceeds(call: nat)
    | GiveUp(call: nat)                // any error at any point before success
    | KillOwn(call: nat)               // the deferred best-effort DELETE; releasing is up to the environment
    | Release(sandbox: nat)            // the environment releases a sandbox, for any reason
    | Unname                           // Portal stops naming a sandbox that is released

  const Init := World(Portal(0, None, map[]), [], {}, {}, map[])

  // What Portal does with a mint: replay the receipt of a known key, advance the binding if the
  // expected revision is still current, refuse otherwise.
  datatype MintReply = Receipt(grant: Grant, advanced: bool) | Conflict

  function PortalMint(p: Portal, key: MintKey, expected: nat, next: nat): MintReply {
    if key in p.receipts then Receipt(p.receipts[key], false)
    else if p.revision == expected then Receipt(Grant(expected, next, key.sandbox), true)
    else Conflict
  }

  function PhaseOf(w: World, call: nat): Option<Phase> {
    if call in w.calls then Some(w.calls[call]) else None
  }

  // The mint a call may have under way: the revision it expects and its own sandbox. A request whose
  // response the call no longer waits for can reach Portal at any later time.
  datatype Request = Request(expected: nat, sandbox: nat)

  function Asks(phase: Phase): Option<Request> {
    match phase
    case Provisioned(expected, s, _) => Some(Request(expected, s))
    case Authorized(g) => Some(Request(g.expected, g.sandbox))
    case Attached(g) => Some(Request(g.expected, g.sandbox))
    case Cleaning(own) => Some(Request(own.expected, own.sandbox))
    case Failed(Some(own)) => Some(Request(own.expected, own.sandbox))
    case _ => None
  }

  // The call has returned an error.
  predicate Over(phase: Phase) { phase.Failed? || phase.Unmade? }

  predicate Enabled(w: World, step: Step) {
    match step
    case Start(c) => c !in w.calls
    case Create(c) => c !in w.calls
    case ReadBinding(c) => PhaseOf(w, c) == Some(Reading)
    case SeeReleased(c) =>
      && c in w.calls && w.calls[c].Checking?
      && (w.calls[c].named.Some? ==> w.calls[c].named.value in w.released)
    case Provision(c, s, delivered) =>
      && c in w.calls && s !in w.created
      && (w.calls[c].Cleared? || (w.calls[c].Unmade? && !delivered))
    case Mint(c, _, _, next, delivered) =>
      && c in w.calls && Asks(w.calls[c]).Some? && next > w.portal.revision
      && (delivered ==> w.calls[c].Provisioned?)
    case BindSucceeds(c) => c in w.calls && w.calls[c].Authorized?
    case GiveUp(c) => c in w.calls && !w.calls[c].Attached? && !w.calls[c].Cleaning? && !Over(w.calls[c])
    case KillOwn(c) => c in w.calls && w.calls[c].Cleaning?
    case Release(s) => s in w.created
    case Unname => w.portal.sandbox.Some? && w.portal.sandbox.value in w.released
  }

  function At(w: World, call: nat, phase: Phase): World {
    w.(calls := w.calls[call := phase])
  }

  // Abandoning a call before it provisioned leaves nothing to clean up, though its create request may
  // still reach the control plane.
  function Abandon(phase: Phase): Phase {
    match phase
    case Cleared(expected) => Unmade(expected)
    case Provisioned(expected, s, lost) => Cleaning(Own(expected, s, None, lost))
    case Authorized(g) => Cleaning(Own(g.expected, g.sandbox, Some(g), false))
    case _ => Failed(None)
  }

  // Portal granted a mint of this call and the response is lost.
  function Lose(phase: Phase): Phase {
    match phase
    case Provisioned(expected, s, _) => Provisioned(expected, s, true)
    case Cleaning(own) => Cleaning(own.(lost := true))
    case Failed(Some(own)) => Failed(Some(own.(lost := true)))
    case _ => phase
  }

  function ApplyMint(w: World, c: nat, pod: nat, boot: nat, next: nat, delivered: bool): World
    requires Enabled(w, Mint(c, pod, boot, next, delivered))
  {
    var phase := w.calls[c];
    var Request(expected, sandbox) := Asks(phase).value;
    var key := MintKey(sandbox, pod, boot);
    match PortalMint(w.portal, key, expected, next)
    case Conflict => if delivered then At(w, c, Abandon(phase)) else w
    case Receipt(g, advanced) =>
      var w1 := if !advanced then w else w.(
        portal := Portal(g.revision, Some(g.sandbox), w.portal.receipts[key := g]),
        log := w.log + [g]);
      // The client refuses a receipt whose revision does not advance.
      if delivered then At(w1, c, if g.revision > expected then Authorized(g) else Abandon(phase))
      else if advanced then At(w1, c, Lose(phase)) else w
  }

  function Apply(w: World, step: Step): World
    requires Enabled(w, step)
  {
    match step
    case Start(c) => At(w, c, Reading)
    case Create(c) => At(w, c, Cleared(0))
    case ReadBinding(c) => At(w, c, Checking(w.portal.revision, w.portal.sandbox))
    case SeeReleased(c) => At(w, c, Cleared(w.calls[c].expected))
    case Provision(c, s, delivered) =>
      At(w.(created := w.created + {s}), c,
         if delivered then Provisioned(w.calls[c].expected, s, false) else Failed(None))
    case Mint(c, pod, boot, next, delivered) => ApplyMint(w, c, pod, boot, next, delivered)
    case BindSucceeds(c) => At(w, c, Attached(w.calls[c].grant))
    case GiveUp(c) => At(w, c, Abandon(w.calls[c]))
    case KillOwn(c) => At(w, c, Failed(Some(w.calls[c].own)))
    case Release(s) => w.(released := w.released + {s})
    case Unname => w.(portal := w.portal.(sandbox := None))
  }

  // A run is a sequence of steps each enabled where it happens; it has no outcome otherwise.
  ghost function Run(steps: seq<Step>): Option<World> {
    if steps == [] then Some(Init)
    else
      var before := Run(steps[..|steps|-1]);
      var step := steps[|steps|-1];
      if before.Some? && Enabled(before.value, step) then Some(Apply(before.value, step)) else None
  }

  ghost predicate IsRun(steps: seq<Step>) { Run(steps).Some? }

  ghost function After(steps: seq<Step>): World
    requires IsRun(steps)
  {
    Run(steps).value
  }

  // ---------------------------------------------------------------- the invariant

  // The revision Portal is at after `log`.
  function Tip(log: seq<Grant>): nat {
    if log == [] then 0 else log[|log|-1].revision
  }

  // Every authorization replaced the one just before it with a higher revision.
  ghost predicate Ordered(log: seq<Grant>) {
    log == [] ||
    var before, last := log[..|log|-1], log[|log|-1];
    Ordered(before) && last.expected == Tip(before) < last.revision
  }

  ghost predicate LogOk(w: World) {
    && Ordered(w.log)
    && w.portal.revision == Tip(w.log)
    && (forall i | 0 <= i < |w.log| :: w.log[i].sandbox in w.created)
    && (forall i, j | 0 <= i < j < |w.log| :: w.log[i].sandbox != w.log[j].sandbox)
    && (forall i | 0 <= i < |w.log| - 1 :: w.log[i].sandbox in w.released)
  }

  // Nothing Portal currently names is live.
  ghost predicate LastReleased(w: World) {
    w.log == [] || w.log[|w.log|-1].sandbox in w.released
  }

  ghost predicate PortalOk(w: World) {
    && (w.portal.sandbox.Some? ==> w.log != [] && w.portal.sandbox.value == w.log[|w.log|-1].sandbox)
    && (w.portal.sandbox.None? ==> LastReleased(w))
    && (forall k | k in w.portal.receipts :: w.portal.receipts[k] in w.log && w.portal.receipts[k].sandbox == k.sandbox)
  }

  // A call that froze revision `expected` may still move the binding only if nothing named is live.
  ghost predicate MayMove(w: World, expected: nat) {
    expected <= w.portal.revision && (expected == w.portal.revision ==> LastReleased(w))
  }

  ghost predicate Granted(log: seq<Grant>, sandbox: nat) {
    exists g :: g in log && g.sandbox == sandbox
  }

  // A sandbox whose call holds no receipt for it: it is authorized exactly if a response was lost.
  ghost predicate Unknown(w: World, expected: nat, sandbox: nat, lost: bool) {
    && (forall g | g in w.log && g.sandbox == sandbox :: g.expected == expected && lost)
    && (lost ==> Granted(w.log, sandbox))
  }

  ghost predicate OwnOk(w: World, own: Own) {
    && MayMove(w, own.expected)
    && (own.committed.None? ==> Unknown(w, own.expected, own.sandbox, own.lost))
    && (own.committed.Some? ==>
          var g := own.committed.value;
          g in w.log && g.sandbox == own.sandbox && g.expected == own.expected && !own.lost)
  }

  ghost predicate PhaseOk(w: World, phase: Phase) {
    match phase
    case Reading => true
    case Checking(expected, named) =>
      && expected <= w.portal.revision
      && (expected == w.portal.revision ==>
            if named.Some? then w.log != [] && named.value == w.log[|w.log|-1].sandbox else LastReleased(w))
    case Cleared(expected) => MayMove(w, expected)
    case Unmade(expected) => MayMove(w, expected)
    case Provisioned(expected, s, lost) => MayMove(w, expected) && Unknown(w, expected, s, lost)
    case Authorized(g) => g in w.log
    case Attached(g) => g in w.log
    case Cleaning(own) => OwnOk(w, own)
    case Failed(owned) => owned.Some? ==> OwnOk(w, owned.value)
  }

  // The sandbox a call created and knows of.
  function Owned(phase: Phase): Option<nat> {
    var r := Asks(phase);
    if r.Some? then Some(r.value.sandbox) else None
  }

  ghost predicate CallsOk(w: World) {
    && (forall c | c in w.calls :: PhaseOk(w, w.calls[c]))
    && (forall c, d | c in w.calls && d in w.calls && c != d && Owned(w.calls[c]).Some? ::
          Owned(w.calls[c]) != Owned(w.calls[d]))
    && (forall c | c in w.calls && Owned(w.calls[c]).Some? :: Owned(w.calls[c]).value in w.created)
  }

  ghost predicate Inv(w: World) {
    LogOk(w) && PortalOk(w) && CallsOk(w)
  }

  lemma {:induction false} RevisionsIncrease(log: seq<Grant>, i: nat, j: nat)
    requires Ordered(log) && i < j < |log|
    ensures log[i].revision <= log[j].expected < log[j].revision
    decreases |log|
  {
    var before := log[..|log|-1];
    if j < |log| - 1 {
      RevisionsIncrease(before, i, j);
    } else if i < j - 1 {
      RevisionsIncrease(before, i, j - 1);
    }
  }

  lemma {:induction false} GrantAdvances(log: seq<Grant>, i: nat)
    requires Ordered(log) && i < |log|
    ensures log[i].expected < log[i].revision <= Tip(log)
  {
    if i < |log| - 1 { GrantAdvances(log[..|log|-1], i); }
  }

  // No step of the environment or of a call that leaves Portal alone can spoil a phase.
  lemma PhaseKept(w: World, w': World, phase: Phase)
    requires PhaseOk(w, phase)
    requires w'.log == w.log && w'.portal.revision == w.portal.revision
    requires w.released <= w'.released && w.created <= w'.created
    ensures PhaseOk(w', phase)
  {
  }

  // A step that leaves Portal's log alone keeps the invariant, if the phase it moves a call to is
  // sound there and answers for a sandbox no other call owns.
  lemma QuietStep(w: World, w': World, c: nat, phase: Phase)
    requires Inv(w)
    requires w'.log == w.log && w'.portal == w.portal && w'.calls == w.calls[c := phase]
    requires w.released <= w'.released && w.created <= w'.created
    requires PhaseOk(w', phase)
    requires Owned(phase).Some? ==> Owned(phase).value in w'.created
    requires Owned(phase).Some? && Owned(phase).value in w.created ==> c in w.calls && Owned(w.calls[c]) == Owned(phase)
    ensures Inv(w')
  {
    forall d | d in w'.calls ensures PhaseOk(w', w'.calls[d]) {
      if d != c { PhaseKept(w, w', w.calls[d]); }
    }
  }

  // Only a call that holds no receipt can still win the compare-and-swap.
  lemma WinnerUnknowing(w: World, phase: Phase)
    requires LogOk(w) && PhaseOk(w, phase) && Asks(phase).Some? && w.portal.revision == Asks(phase).value.expected
    ensures LastReleased(w)
    ensures phase.Provisioned? || (phase.Cleaning? && phase.own.committed.None?) ||
            (phase.Failed? && phase.owned.Some? && phase.owned.value.committed.None?)
    ensures forall h | h in w.log && h.sandbox == Asks(phase).value.sandbox :: h.expected == w.portal.revision
  {
    hide Ordered;
    forall g | g in w.log ensures g.expected < w.portal.revision { GrantBelow(w, g); }
  }

  // The compare-and-swap: a fresh grant lands only on a binding whose sandbox is released.
  lemma GrantStep(w: World, c: nat, pod: nat, boot: nat, next: nat, delivered: bool)
    requires Inv(w) && Enabled(w, Mint(c, pod, boot, next, delivered))
    requires var r := Asks(w.calls[c]).value;
             MintKey(r.sandbox, pod, boot) !in w.portal.receipts && w.portal.revision == r.expected
    ensures Inv(ApplyMint(w, c, pod, boot, next, delivered))
  {
    hide LogOk, Ordered, PhaseOk, PortalOk, Granted, MayMove;
    var phase := w.calls[c];
    var Request(expected, sandbox) := Asks(phase).value;
    var g := Grant(expected, next, sandbox);
    var w' := ApplyMint(w, c, pod, boot, next, delivered);
    assert w'.log == w.log + [g];
    WinnerUnknowing(w, phase);
    GrantLog(w, w', expected, g);
    GrantPortal(w, w', MintKey(sandbox, pod, boot), g);
    GrantPhase(w, w', phase, g);
    GrantCalls(w, w', c, g);
  }

  // Where the winner goes: it holds the receipt, or has lost it.
  lemma GrantPhase(w: World, w': World, phase: Phase, g: Grant)
    requires Asks(phase) == Some(Request(g.expected, g.sandbox)) && !phase.Authorized? && !phase.Attached?
    requires phase.Cleaning? ==> phase.own.committed.None?
    requires phase.Failed? ==> phase.owned.value.committed.None?
    requires forall h | h in w.log && h.sandbox == g.sandbox :: h.expected == g.expected
    requires w'.log == w.log + [g] && w'.portal.revision == g.revision > g.expected
    ensures PhaseOk(w', Authorized(g)) && PhaseOk(w', Lose(phase))
    ensures Owned(Lose(phase)) == Some(g.sandbox)
  {
    assert g in w'.log;
    assert forall h | h in w'.log :: h in w.log || h == g;
  }

  lemma GrantPortal(w: World, w': World, key: MintKey, g: Grant)
    requires PortalOk(w) && key.sandbox == g.sandbox
    requires w'.portal == Portal(g.revision, Some(g.sandbox), w.portal.receipts[key := g]) && w'.log == w.log + [g]
    ensures PortalOk(w')
  {
    assert g in w'.log && forall h | h in w.log :: h in w'.log;
  }

  lemma GrantCalls(w: World, w': World, c: nat, g: Grant)
    requires Inv(w) && c in w.calls && Owned(w.calls[c]) == Some(g.sandbox)
    requires w'.log == w.log + [g] && w'.portal.revision == g.revision > w.portal.revision
    requires w'.released == w.released && w'.created == w.created
    requires c in w'.calls && w'.calls == w.calls[c := w'.calls[c]]
    requires PhaseOk(w', w'.calls[c]) && Owned(w'.calls[c]) == Some(g.sandbox)
    ensures CallsOk(w')
  {
    hide PhaseOk, LogOk, PortalOk, Asks;
    forall d | d in w'.calls ensures PhaseOk(w', w'.calls[d]) {
      if d != c { PhasePassed(w, w', w.calls[d], g); }
    }
  }

  // The log grows soundly: its newest sandbox was released, and the granted one is new to it.
  lemma GrantLog(w: World, w': World, expected: nat, g: Grant)
    requires LogOk(w) && LastReleased(w) && expected == w.portal.revision < g.revision
    requires g.expected == expected && g.sandbox in w.created
    requires forall h | h in w.log && h.sandbox == g.sandbox :: h.expected == expected
    requires w'.log == w.log + [g] && w'.portal.revision == g.revision
    requires w'.created == w.created && w'.released == w.released
    ensures LogOk(w')
  {
    assert w'.log[..|w.log|] == w.log;
    forall i | 0 <= i < |w.log| ensures w.log[i].sandbox != g.sandbox {
      assert w.log[i] in w.log;
      GrantAdvances(w.log, i);
    }
  }

  // A call overtaken by another call's grant only becomes more harmless.
  lemma PhasePassed(w: World, w': World, phase: Phase, g: Grant)
    requires LogOk(w) && PhaseOk(w, phase) && Owned(phase) != Some(g.sandbox)
    requires w'.log == w.log + [g] && w'.portal.revision == g.revision > w.portal.revision
    requires w'.released == w.released && w'.created == w.created
    ensures PhaseOk(w', phase)
  {
    assert forall h | h in w'.log :: h in w.log || h == g;
  }

  lemma MintStep(w: World, c: nat, pod: nat, boot: nat, next: nat, delivered: bool)
    requires Inv(w) && Enabled(w, Mint(c, pod, boot, next, delivered))
    ensures Inv(ApplyMint(w, c, pod, boot, next, delivered))
  {
    var Request(expected, sandbox) := Asks(w.calls[c]).value;
    if MintKey(sandbox, pod, boot) !in w.portal.receipts && w.portal.revision == expected {
      GrantStep(w, c, pod, boot, next, delivered);
    } else if delivered {
      var w' := ApplyMint(w, c, pod, boot, next, delivered);
      QuietStep(w, w', c, w'.calls[c]);
    }
  }

  // The environment releasing a sandbox, or Portal no longer naming a released one.
  lemma EnvironmentStep(w: World, step: Step)
    requires Inv(w) && Enabled(w, step) && (step.Release? || step.Unname?)
    ensures Inv(Apply(w, step))
  {
    hide PhaseOk, Ordered;
    var w' := Apply(w, step);
    forall d | d in w.calls ensures PhaseOk(w', w.calls[d]) { PhaseKept(w, w', w.calls[d]); }
  }

  // A call beginning, reading the binding, or seeing it released.
  lemma BeginStep(w: World, step: Step)
    requires Inv(w) && Enabled(w, step) && (step.Start? || step.Create? || step.ReadBinding? || step.SeeReleased?)
    ensures Inv(Apply(w, step))
  {
    hide ApplyMint;
    QuietStep(w, Apply(w, step), step.call, Apply(w, step).calls[step.call]);
  }

  lemma ProvisionStep(w: World, step: Step)
    requires Inv(w) && Enabled(w, step) && step.Provision?
    ensures Inv(Apply(w, step))
  {
    hide ApplyMint, Ordered, PortalOk;
    assert forall g | g in w.log :: g.sandbox in w.created;
    assert PhaseOk(w, w.calls[step.call]);
    QuietStep(w, Apply(w, step), step.call, Apply(w, step).calls[step.call]);
  }

  // A call succeeding, giving up, or killing its sandbox.
  lemma EndStep(w: World, step: Step)
    requires Inv(w) && Enabled(w, step) && (step.BindSucceeds? || step.GiveUp? || step.KillOwn?)
    ensures Inv(Apply(w, step))
  {
    hide ApplyMint, LogOk, PortalOk, Granted;
    var phase := w.calls[step.call];
    assert PhaseOk(w, phase);
    if phase.Authorized? { GrantBelow(w, phase.grant); }
    QuietStep(w, Apply(w, step), step.call, Apply(w, step).calls[step.call]);
  }

  lemma GrantBelow(w: World, g: Grant)
    requires LogOk(w) && g in w.log
    ensures g.expected < w.portal.revision
  {
    var i :| 0 <= i < |w.log| && w.log[i] == g;
    GrantAdvances(w.log, i);
  }

  lemma StepKeepsInv(w: World, step: Step)
    requires Inv(w) && Enabled(w, step)
    ensures Inv(Apply(w, step))
  {
    hide ApplyMint, Inv;
    match step {
      case Mint(c, pod, boot, next, delivered) => MintStep(w, c, pod, boot, next, delivered);
      case Release(_) => EnvironmentStep(w, step);
      case Unname => EnvironmentStep(w, step);
      case Provision(_, _, _) => ProvisionStep(w, step);
      case BindSucceeds(_) => EndStep(w, step);
      case GiveUp(_) => EndStep(w, step);
      case KillOwn(_) => EndStep(w, step);
      case _ => BeginStep(w, step);
    }
  }

  lemma {:induction false} RunKeepsInv(steps: seq<Step>)
    requires IsRun(steps)
    ensures Inv(After(steps))
  {
    if steps != [] {
      RunKeepsInv(steps[..|steps|-1]);
      StepKeepsInv(After(steps[..|steps|-1]), steps[|steps|-1]);
    }
  }

  // ---------------------------------------------------------------- main results

  // Sandboxes Portal has ever authorized that are not released.
  ghost function LiveAuthorized(w: World): set<nat> {
    set g | g in w.log && g.sandbox !in w.released :: g.sandbox
  }

  // In every interleaving, no revision and no sandbox is authorized twice, every authorization
  // but the newest belongs to a released sandbox, and at most one authorized sandbox is live.
  lemma OneLiveAuthorization(steps: seq<Step>)
    requires IsRun(steps)
    ensures var w := After(steps);
      && (forall i, j | 0 <= i < j < |w.log| ::
            w.log[i].revision < w.log[j].revision && w.log[i].sandbox != w.log[j].sandbox)
      && (forall i | 0 <= i < |w.log| - 1 :: w.log[i].sandbox in w.released)
      && |LiveAuthorized(w)| <= 1
  {
    RunKeepsInv(steps);
    var w := After(steps);
    forall i, j | 0 <= i < j < |w.log| ensures w.log[i].revision < w.log[j].revision {
      RevisionsIncrease(w.log, i, j);
    }
    if LiveAuthorized(w) != {} {
      var last := w.log[|w.log|-1].sandbox;
      forall s | s in LiveAuthorized(w) ensures s == last {
        var g :| g in w.log && g.sandbox == s && g.sandbox !in w.released;
        var i :| 0 <= i < |w.log| && w.log[i] == g;
      }
      assert LiveAuthorized(w) <= {last};
      SubsetOfOne(LiveAuthorized(w), last);
    }
  }

  lemma SubsetOfOne(s: set<nat>, x: nat)
    requires s <= {x}
    ensures |s| <= 1
  {
    if s != {} { assert s == {x}; }
  }

  // At the moment any step commits an authorization, every sandbox authorized before it is already
  // released, and the authorization replaces exactly the newest of them.
  lemma GrantNeedsRelease(steps: seq<Step>, i: nat)
    requires IsRun(steps) && 0 < |steps|
    requires var w := After(steps[..|steps|-1]); i < |w.log| < |After(steps).log|
    ensures var w := After(steps[..|steps|-1]);
      && w.log[i].sandbox in w.released
      && After(steps).log == w.log + [After(steps).log[|w.log|]]
      && After(steps).log[|w.log|].expected == w.log[|w.log|-1].revision
  {
    hide Apply, Enabled, PortalOk, CallsOk;
    var before := steps[..|steps|-1];
    RunKeepsInv(before);
    RunKeepsInv(steps);
    LogGrows(After(before), steps[|steps|-1]);
    assert After(steps).log[i] == After(before).log[i];
  }

  // A step adds at most one authorization, and only one that expected the current revision.
  lemma LogGrows(w: World, step: Step)
    requires Enabled(w, step)
    ensures var w' := Apply(w, step);
      w'.log != w.log ==>
        && w'.released == w.released && |w'.log| == |w.log| + 1 && w'.log[..|w.log|] == w.log
        && w'.log[|w.log|].expected == w.portal.revision
  {
  }

  // Nothing is even provisioned before the sandboxes of the binding the call froze, and of every
  // older one, are released.
  lemma ProvisionNeedsRelease(steps: seq<Step>, c: nat, own: nat, delivered: bool, i: nat)
    requires IsRun(steps) && Enabled(After(steps), Provision(c, own, delivered))
    requires i < |After(steps).log| && After(steps).log[i].revision <= After(steps).calls[c].expected
    ensures After(steps).log[i].sandbox in After(steps).released
  {
    hide Run;
    RunKeepsInv(steps);
    var w := After(steps);
    assert PhaseOk(w, w.calls[c]);
    GrantAdvances(w.log, i);
  }

  // Two calls that both returned an attached Computer whose sandbox still runs are one call.
  lemma OneLiveWinner(steps: seq<Step>, c: nat, d: nat)
    requires IsRun(steps)
    requires var w := After(steps);
      && c in w.calls && w.calls[c].Attached? && w.calls[c].grant.sandbox !in w.released
      && d in w.calls && w.calls[d].Attached? && w.calls[d].grant.sandbox !in w.released
    ensures c == d
  {
    RunKeepsInv(steps);
    var w := After(steps);
    var i :| 0 <= i < |w.log| && w.log[i] == w.calls[c].grant;
    var j :| 0 <= j < |w.log| && w.log[j] == w.calls[d].grant;
    assert Owned(w.calls[c]) == Owned(w.calls[d]);
  }

  // What a failing call answers for, while it cleans up and once its error is returned.
  function OwnOf(phase: Phase): Option<Own> {
    match phase
    case Cleaning(own) => Some(own)
    case Failed(owned) => owned
    case _ => None
  }

  // AttachAuthorizationCommittedError never lies, and it is complete exactly unless Portal granted a
  // mint whose response was lost.
  lemma CommittedReportExact(steps: seq<Step>, c: nat)
    requires IsRun(steps) && c in After(steps).calls && OwnOf(After(steps).calls[c]).Some?
    ensures var w := After(steps); var own := OwnOf(w.calls[c]).value;
      && (own.committed.Some? ==> own.committed.value in w.log && own.committed.value.sandbox == own.sandbox)
      && (!own.lost <==> (own.committed.Some? <==> Granted(w.log, own.sandbox)))
  {
    RunKeepsInv(steps);
    assert PhaseOk(After(steps), After(steps).calls[c]);
  }

  // A sandbox whose create response was lost is never authorized, so a call that knows of no sandbox
  // of its own has no authorization to report.
  lemma {:induction false} OrphanNeverAuthorized(steps: seq<Step>, c: nat, s: nat)
    requires IsRun(steps) && Provision(c, s, false) in steps
    ensures var w := After(steps);
      && s in w.created && !Granted(w.log, s)
      && (forall d | d in w.calls :: Owned(w.calls[d]) != Some(s))
  {
    var before, last := steps[..|steps|-1], steps[|steps|-1];
    assert steps == before + [last];
    RunKeepsInv(before);
    if Provision(c, s, false) in before {
      OrphanNeverAuthorized(before, c, s);
      OrphanKept(After(before), last, s);
    } else {
      assert last == Provision(c, s, false);
      OrphanMade(After(before), c, s);
    }
  }

  lemma OrphanMade(w: World, c: nat, s: nat)
    requires Inv(w) && Enabled(w, Provision(c, s, false))
    ensures var w' := Apply(w, Provision(c, s, false));
      s in w'.created && !Granted(w'.log, s) && (forall d | d in w'.calls :: Owned(w'.calls[d]) != Some(s))
  {
    hide PhaseOk, PortalOk, Ordered;
    assert forall g | g in w.log :: g.sandbox in w.created;
  }

  lemma OrphanKept(w: World, step: Step, s: nat)
    requires Inv(w) && Enabled(w, step) && s in w.created && !Granted(w.log, s)
    requires forall d | d in w.calls :: Owned(w.calls[d]) != Some(s)
    ensures var w' := Apply(w, step);
      s in w'.created && !Granted(w'.log, s) && (forall d | d in w'.calls :: Owned(w'.calls[d]) != Some(s))
  {
    hide PhaseOk, LogOk, ApplyMint;
    if step.Mint? {
      OrphanUnminted(w, step.call, step.pod, step.boot, step.next, step.delivered, s);
    } else if !step.Release? && !step.Unname? {
      assert step.Provision? ==> step.sandbox != s;
    }
  }

  lemma OrphanUnminted(w: World, c: nat, pod: nat, boot: nat, next: nat, delivered: bool, s: nat)
    requires PortalOk(w) && Enabled(w, Mint(c, pod, boot, next, delivered)) && s in w.created && !Granted(w.log, s)
    requires forall d | d in w.calls :: Owned(w.calls[d]) != Some(s)
    ensures var w' := ApplyMint(w, c, pod, boot, next, delivered);
      s in w'.created && !Granted(w'.log, s) && (forall d | d in w'.calls :: Owned(w'.calls[d]) != Some(s))
  {
    var w' := ApplyMint(w, c, pod, boot, next, delivered);
    var r := Asks(w.calls[c]).value;
    forall g | g in w'.log ensures g.sandbox != s {
      if g !in w.log { assert g.sandbox == r.sandbox; }
    }
  }

  // Completeness can fail: a mint whose response is lost can leave the failed call's own, unreported
  // sandbox authorized.
  lemma LostReceiptUnreported()
    ensures var steps := [Create(0), Provision(0, 7, true), Mint(0, 1, 1, 1, false), GiveUp(0), KillOwn(0)];
      && IsRun(steps)
      && After(steps).calls[0] == Failed(Some(Own(0, 7, None, true)))
      && LiveAuthorized(After(steps)) == {7}
  {
    hide Run, LiveAuthorized;
    EmptyRun();
    var s0: seq<Step> := [];
    var s1 := s0 + [Create(0)];
    var s2 := s1 + [Provision(0, 7, true)];
    var s3 := s2 + [Mint(0, 1, 1, 1, false)];
    var s4 := s3 + [GiveUp(0)];
    var w1 := Extend(s0, Create(0));
    var w2 := Extend(s1, Provision(0, 7, true));
    var w3 := Extend(s2, Mint(0, 1, 1, 1, false));
    var w4 := Extend(s3, GiveUp(0));
    var w5 := Extend(s4, KillOwn(0));
    assert s4 + [KillOwn(0)] == [Create(0), Provision(0, 7, true), Mint(0, 1, 1, 1, false), GiveUp(0), KillOwn(0)];
    OnlyLive(w5, Grant(0, 1, 7));
  }

  lemma EmptyRun()
    ensures IsRun([]) && After([]) == Init
  {
  }

  lemma OnlyLive(w: World, g: Grant)
    requires w.log == [g] && g.sandbox !in w.released
    ensures LiveAuthorized(w) == {g.sandbox}
  {
    assert g in w.log;
  }

  // A create whose response is lost leaves a sandbox running that no call knows of.
  lemma LostCreateLeavesOrphan()
    ensures var steps := [Create(0), Provision(0, 7, false)];
      && IsRun(steps)
      && After(steps).calls[0] == Failed(None)
      && 7 in After(steps).created && 7 !in After(steps).released
  {
    var s0: seq<Step> := [];
    var s1 := s0 + [Create(0)];
    var w1 := Extend(s0, Create(0));
    var w2 := Extend(s1, Provision(0, 7, false));
    assert s1 + [Provision(0, 7, false)] == [Create(0), Provision(0, 7, false)];
  }

  lemma Extend(steps: seq<Step>, step: Step) returns (w: World)
    requires IsRun(steps) && Enabled(After(steps), step)
    ensures IsRun(steps + [step]) && After(steps + [step]) == w == Apply(After(steps), step)
  {
    assert (steps + [step])[..|steps|] == steps;
    w := Apply(After(steps), step);
  }
}
