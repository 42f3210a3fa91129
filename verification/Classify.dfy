// The retry class of one bind attempt (internal/bind/classify.go).
module Classify {
  // No HTTP response at all is a transport fault; an empty problem type is a plain ingress answer.
  datatype Outcome = Outcome(transportFault: bool, status: int, problemType: string, message: string)

  datatype ErrorKind = BindError | BindAuth | AlreadyAttached | SandboxUnusable | SavedStateUnavailable

  datatype Verdict = Readiness | Terminal(kind: ErrorKind, status: int, message: string)

  function Lower(c: char): char {
    if 'A' <= c <= 'Z' then c - 'A' + 'a' else c
  }

  function LowerAll(s: string): string {
    seq(|s|, i requires 0 <= i < |s| => Lower(s[i]))
  }

  predicate Contains(s: string, part: string) {
    part <= s || (s != "" && Contains(s[1..], part))
  }

  predicate EpochConflict(message: string) { Contains(LowerAll(message), "epoch") }

  function StatusFallback(o: Outcome): Verdict {
    Terminal(
      if o.status == 401 || o.status == 403 then BindAuth
      else if o.status == 409 then BindError
      else if o.status == 503 then SavedStateUnavailable
      else BindError,
      o.status, o.message)
  }

  function Classify(o: Outcome): Verdict {
    if o.transportFault then Readiness
    else if o.problemType == "" then
      if o.status == 404 || o.status == 503 then Readiness else StatusFallback(o)
    else if o.problemType == "/errors/sandbox-not-found" || o.problemType == "/errors/sandbox-not-ready"
         || o.problemType == "/errors/bind-in-progress" || o.problemType == "/errors/egress-activation-failed" then
      Readiness
    else if o.problemType == "/errors/bind-restore-failed" then
      if EpochConflict(o.message) then Terminal(AlreadyAttached, o.status, o.message)
      else if o.status >= 500 then Readiness
      else Terminal(SavedStateUnavailable, o.status, o.message)
    else if o.problemType == "/errors/bind-rejected" then Terminal(BindAuth, o.status, o.message)
    else if o.problemType == "/errors/bind-not-configured" || o.problemType == "/errors/bind-lease-unenforceable"
         || o.problemType == "/errors/stale-coord-boot-id" || o.problemType == "/errors/wrong-pod-uid"
         || o.problemType == "/errors/ephem-pub-mismatch" then
      Terminal(BindError, o.status, o.message)
    else if o.problemType == "/errors/already-bound-different-cid" || o.problemType == "/errors/pod-tainted" then
      Terminal(SandboxUnusable, o.status, o.message)
    else StatusFallback(o)
  }

  // Problem types that only mean the pod is not ready yet.
  const READY_LATER: set<string> := {
    "/errors/sandbox-not-found", "/errors/sandbox-not-ready", "/errors/bind-in-progress",
    "/errors/egress-activation-failed"
  }

  // Problem types that end the bind whatever the status, and the error each becomes.
  const FINAL: map<string, ErrorKind> := map[
    "/errors/bind-rejected" := BindAuth,
    "/errors/bind-not-configured" := BindError, "/errors/bind-lease-unenforceable" := BindError,
    "/errors/stale-coord-boot-id" := BindError, "/errors/wrong-pod-uid" := BindError,
    "/errors/ephem-pub-mismatch" := BindError,
    "/errors/already-bound-different-cid" := SandboxUnusable, "/errors/pod-tainted" := SandboxUnusable
  ]

  const RESTORE_FAILED := "/errors/bind-restore-failed"

  // Exactly what is tried again: no answer, a bare 404 or 503, a pod that is not ready, and a restore that
  // failed on the server's side without another pod having won.
  lemma RetriedExactly(o: Outcome)
    ensures Classify(o) == Readiness <==>
      || o.transportFault
      || (o.problemType == "" && (o.status == 404 || o.status == 503))
      || o.problemType in READY_LATER
      || (o.problemType == RESTORE_FAILED && o.status >= 500 && !EpochConflict(o.message))
  {
    hide EpochConflict;
  }

  // And what everything else is reported as, with its status and message.
  lemma ReportedAs(o: Outcome)
    requires Classify(o) != Readiness
    ensures Classify(o).status == o.status && Classify(o).message == o.message
    ensures Classify(o).kind ==
      if o.problemType in FINAL then FINAL[o.problemType]
      else if o.problemType == RESTORE_FAILED then
        if EpochConflict(o.message) then AlreadyAttached else SavedStateUnavailable
      else if o.status == 401 || o.status == 403 then BindAuth
      else if o.status == 503 then SavedStateUnavailable
      else BindError
  {
    hide EpochConflict;
  }
}
