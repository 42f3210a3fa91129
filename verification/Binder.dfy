// The bind handshake (internal/binder/binder.go): one Portal authorization, then a bind POST
// repeated under four budgets until the coordinator accepts it or a budget runs out.
//
// The coordinator, Portal, the clock and the caller's context are an oracle that gives one `Turn`
// per loop iteration; nothing is assumed of it except that the clock does not run backwards and a
// completed sleep lasts at least as long as asked.
module Binder {
  import opened Common
  import opened Hpke
  import opened PriorKeys
  import Classify

  const DEFAULT_MAX_BIND_ATTEMPTS := 3
  const DEFAULT_READY_TIMEOUT := 120 * SECOND
  const MAX_RESTORE_ROUNDS := 6
  const SECRET_SIZE := 32

  // The handshake's view of a registered capture keypair.
  datatype HeldKey = HeldKey(generation: int, pk: PublicKey, sk: PrivateKey)

  datatype Location = Location(country: string, mode: string)

  datatype Config = Config(
    computer: string, sandbox: string, key: Bytes, priorKeys: map<int, Bytes>, bindingRevision: int,
    location: Option<Location>, ephemeral: bool, keypairs: map<int, HeldKey>, captureGen: int,
    maxBindAttempts: int, readyTimeout: int)

  // What a failed request can be, as far as the handshake tells errors apart.
  datatype Fault =
    | Timeout | Connection
    | PortalRefusal                                              // a typed Portal mint error
    | Api(status: int, problemType: string, detail: string)
    | Plain                                                      // any other error

  datatype Reply<+T> = Ok(value: T) | Err(fault: Fault)

  datatype Pubkey = Pubkey(pod: string, boot: string, ephem: PublicKey)

  datatype Credentials = Credentials(bindToken: string, brokerGrant: string, assertion: string, revision: int,
                                     location: Option<Location>)

  datatype Component = Component(name: string, objectId: string, epoch: int, generation: int, fingerprint: Fingerprint,
                                 enc: Option<nat>, sealedS: Option<Sealed>)   // None: not base64url

  datatype Challenge = Challenge(id: string, components: seq<Component>)

  // A bind POST answered 2xx carries the Computer token, or a restore challenge.
  datatype BindAnswer = Token(ct: string) | Restore(challenge: Challenge)

  datatype Turn = Turn(
    ctxEnded: bool,
    pubkey: Reply<Pubkey>, mint: Reply<Option<Credentials>>, sealFails: bool, bindEnc: nat,
    bind: Reply<BindAnswer>, answerEnc: nat, answerSealFails: bool,
    elapsed: nat, sleepCut: bool, overslept: nat)

  // The part of the envelope that a bind POST carries unchanged for the sandbox's whole life.
  datatype Core = Core(bindToken: string, pod: string, boot: string, ciphertext: Sealed, assertion: string)

  datatype Envelope = Envelope(core: Core, revision: int, secrets: Option<Sealed>)

  // What the handshake does to the outside world, in order.
  datatype Event =
    | Mint(granted: bool)                                 // an attach-credentials request; whether a receipt came
    | Authorized(revision: int)                           // OnAuthorized
    | Located(location: Location)                         // OnLocation
    | Post(core: Core, secrets: Option<Sealed>)           // one bind POST
    | Answered(challenge: Challenge, answer: Sealed)      // a challenge arrived and was answered
    | Expired                                             // the coordinator forgot its challenge

  datatype Failure =
    | BadConfig | ContextEnded | NotReady(cause: Fault) | MintFailed(cause: Fault)
    | Refused(verdict: Classify.Verdict) | Unclassified(cause: Fault)
    | RestoreDiverged | RestoreExpired | Unanswerable

  datatype Result = Bound(ct: string, revision: int) | Failed(failure: Failure)

  // ---------------------------------------------------------------- classification

  datatype Class = Retry | Stop(failure: Failure)

  // Transport faults are readiness; Portal refusals are terminal even though they wrap an API error.
  function ClassOf(f: Fault): Class {
    match f
    case Timeout => Retry
    case Connection => Retry
    case PortalRefusal => Stop(Unclassified(f))
    case Api(status, problemType, detail) =>
      var v := Classify.Classify(Classify.Outcome(false, status, problemType, detail));
      if v.Readiness? then Retry else Stop(Refused(v))
    case Plain => Stop(Unclassified(f))
  }

  // Exactly what is sent again: a transport fault, or an answer that only means the pod is not ready.
  lemma RetriedExactly(f: Fault)
    ensures ClassOf(f).Retry? <==>
      || f.Timeout? || f.Connection?
      || (f.Api? && f.problemType == "" && (f.status == 404 || f.status == 503))
      || (f.Api? && f.problemType in Classify.READY_LATER)
      || (f.Api? && f.problemType == Classify.RESTORE_FAILED && f.status >= 500 && !Classify.EpochConflict(f.detail))
  {
    hide Classify.Classify, Classify.EpochConflict;
    if f.Api? { Classify.RetriedExactly(Classify.Outcome(false, f.status, f.problemType, f.detail)); }
  }

  lemma StopsAs(f: Fault)
    ensures ClassOf(f).Stop? ==> ClassOf(f).failure.Refused? || ClassOf(f).failure.Unclassified?
  {
    hide Classify.Classify;
  }

  predicate ChallengeExpired(f: Fault) {
    f.Api? && f.problemType == "/errors/bind-restore-no-challenge"
  }

  // ---------------------------------------------------------------- the readiness budget

  function ConvergenceBackoff(n: nat): int {
    Min(n * 500 * MILLISECOND, 3 * SECOND)
  }

  // The least time n convergence waits take.
  function WaitSum(n: nat): int {
    if n == 0 then 0 else WaitSum(n - 1) + ConvergenceBackoff(n)
  }

  // W: the least number of waits that outlast `timeout`, counting from `from`.
  function WaitsFrom(timeout: int, from: nat): (w: nat)
    requires forall k: nat | k < from :: WaitSum(k) < timeout
    ensures WaitSum(w) >= timeout
    ensures forall k: nat | k < w :: WaitSum(k) < timeout
    decreases timeout - WaitSum(from)
  {
    if WaitSum(from) >= timeout then from else WaitsFrom(timeout, from + 1)
  }

  function WaitsWithin(timeout: int): nat { WaitsFrom(timeout, 0) }

  lemma {:induction false} WaitSumMonotone(a: nat, b: nat)
    requires a <= b
    ensures WaitSum(a) <= WaitSum(b)
    decreases b - a
  {
    if a < b { WaitSumMonotone(a, b - 1); }
  }

  // At the default deadline the handshake waits at most 43 times.
  lemma DefaultBudget()
    ensures WaitsWithin(DEFAULT_READY_TIMEOUT) == 43
    ensures WaitsWithin(DEFAULT_READY_TIMEOUT) + (MAX_RESTORE_ROUNDS + 1) * DEFAULT_MAX_BIND_ATTEMPTS == 64
  {
    WaitSumClosed(42);
    WaitSumClosed(43);
    var w := WaitsWithin(DEFAULT_READY_TIMEOUT);
    if w < 43 { WaitSumMonotone(w, 42); }
  }

  lemma {:induction false} WaitSumClosed(n: nat)
    requires n >= 6
    ensures WaitSum(n) == (n - 6) * 3 * SECOND + 10_500 * MILLISECOND
  {
    if n == 6 {
      assert WaitSum(1) == 500 * MILLISECOND;
      assert WaitSum(2) == 1_500 * MILLISECOND;
      assert WaitSum(3) == 3_000 * MILLISECOND;
      assert WaitSum(4) == 5_000 * MILLISECOND;
      assert WaitSum(5) == 7_500 * MILLISECOND;
    } else {
      WaitSumClosed(n - 1);
    }
  }

  // ---------------------------------------------------------------- minting the envelope

  predicate ValidLocation(l: Location) {
    || (l.mode == "direct" && l.country == "")
    || (l.mode == "" && |l.country| == 2 && 'A' <= l.country[0] <= 'Z' && 'A' <= l.country[1] <= 'Z')
  }

  ghost predicate IsBindPayload(cfg: Config, brokerGrant: string, body: Payload) {
    && body.BindPayload? && body.key == cfg.key && body.brokerGrant == brokerGrant
    && IsRestoreKey(cfg.priorKeys, body.restoreKey)
  }

  // The envelope is the one for the pod `turn` showed, made from the receipt `turn` granted: the payload
  // is sealed to that pod under its bind domain, and a requested location was honoured.
  ghost predicate MadeFrom(cfg: Config, turn: Turn, core: Core, revision: int) {
    && turn.pubkey.Ok? && turn.mint.Ok? && turn.mint.value.Some?
    && var pk, creds := turn.pubkey.value, turn.mint.value.value;
    && core.pod == pk.pod && core.boot == pk.boot
    && core.bindToken == creds.bindToken && core.assertion == creds.assertion
    && core.ciphertext.recipient == pk.ephem && core.ciphertext.info == BindInfo(pk.pod, pk.boot)
    && (cfg.ephemeral ==> core.ciphertext.body == LeasePayload(creds.brokerGrant))
    && (!cfg.ephemeral ==> IsBindPayload(cfg, creds.brokerGrant, core.ciphertext.body))
    && revision == creds.revision > cfg.bindingRevision
    && (creds.location.Some? && cfg.location.Some? ==> creds.location == cfg.location)
  }

  // A turn whose mint gives an envelope: the pod answers, the current keypair is registered, Portal grants
  // a complete receipt for a higher revision and an acceptable location, and the payload seals.
  predicate Usable(cfg: Config, turn: Turn) {
    && turn.pubkey.Ok? && (cfg.ephemeral || cfg.captureGen in cfg.keypairs)
    && turn.mint.Ok? && turn.mint.value.Some?
    && var creds := turn.mint.value.value;
    && creds.revision > cfg.bindingRevision
    && (creds.location.Some? ==>
          ValidLocation(creds.location.value) && (cfg.location.Some? ==> creds.location == cfg.location))
    && creds.bindToken != "" && creds.brokerGrant != "" && (cfg.ephemeral || creds.assertion != "")
    && !turn.sealFails
  }

  // The fault such an attempt ends in otherwise: the pod's, Portal's, or none of theirs.
  predicate MintFails(cfg: Config, turn: Turn, f: Fault) {
    && !Usable(cfg, turn)
    && (turn.pubkey == Err(f) || (turn.pubkey.Ok? && (turn.mint == Err(f) || f == Plain)))
  }

  // Fetch the pod identity, mint, validate the receipt and seal the payload: either the envelope
  // every later POST reuses, or the error, together with what reached the outside world.
  method MintEnvelope(cfg: Config, turn: Turn) returns (env: Reply<Envelope>, events: seq<Event>)
    ensures env.Ok? <==> Usable(cfg, turn)
    ensures env.Err? ==> MintFails(cfg, turn, env.fault)
    ensures env.Ok? ==>
      && MadeFrom(cfg, turn, env.value.core, env.value.revision) && env.value.secrets == None
      && |events| >= 2 && events[0] == Mint(true) && events[1] == Authorized(env.value.revision)
    ensures forall i | 0 <= i < |events| ::
      && (i == 0 <==> events[i].Mint?) && (i == 1 <==> events[i].Authorized?)
      && !events[i].Post? && !events[i].Answered? && !events[i].Expired?
      && (events[i].Authorized? ==> events[i].revision > cfg.bindingRevision)
    ensures |events| >= 2 ==> events[0].granted
    // Once Portal granted an authorization no failure is retried.
    ensures env.Err? && |events| >= 1 && events[0].granted ==> ClassOf(env.fault).Stop?
  {
    events := [];
    if turn.pubkey.Err? { return Err(turn.pubkey.fault), events; }
    var pk := turn.pubkey.value;
    if !cfg.ephemeral && cfg.captureGen !in cfg.keypairs { return Err(Plain), events; }
    if turn.mint.Err? { return Err(turn.mint.fault), [Mint(false)]; }
    events := [Mint(true)];
    if turn.mint.value.None? || turn.mint.value.value.revision <= cfg.bindingRevision { return Err(Plain), events; }
    var creds := turn.mint.value.value;
    events := events + [Authorized(creds.revision)];
    if creds.location.Some? {
      if !ValidLocation(creds.location.value) { return Err(Plain), events; }
      if cfg.location.Some? && creds.location != cfg.location { return Err(Plain), events; }
      events := events + [Located(creds.location.value)];
    }
    if creds.bindToken == "" || creds.brokerGrant == "" || (!cfg.ephemeral && creds.assertion == "") {
      return Err(Plain), events;
    }
    var restoreKey := RestoreKey(cfg.priorKeys);
    var payload := if cfg.ephemeral then LeasePayload(creds.brokerGrant)
                   else BindPayload(cfg.key, restoreKey, creds.brokerGrant);
    if turn.sealFails { return Err(Plain), events; }
    var ciphertext := Sealed(pk.ephem, BindInfo(pk.pod, pk.boot), turn.bindEnc, payload);
    env := Ok(Envelope(Core(creds.bindToken, pk.pod, pk.boot, ciphertext, creds.assertion), creds.revision, None));
  }

  // ---------------------------------------------------------------- answering a restore challenge

  // The info string a component's secret must have been sealed under.
  function InfoFor(cfg: Config, c: Component): Info {
    ComponentInfo(cfg.computer, c.name, c.objectId, c.epoch, c.generation, c.fingerprint)
  }

  // A component's secret, unwrapped with the registered keypair of the generation it names.
  function SecretOf(cfg: Config, c: Component): Option<Bytes> {
    if c.generation !in cfg.keypairs then None
    else if FingerprintOf(cfg.keypairs[c.generation].pk) != c.fingerprint then None
    else if c.enc.None? || c.sealedS.None? then None
    else
      var body := Open(cfg.keypairs[c.generation].sk, c.sealedS.value, c.enc.value, InfoFor(cfg, c));
      if body.Some? && body.value.ComponentSecret? && |body.value.secret| == SECRET_SIZE
      then Some(body.value.secret) else None
  }

  // `secrets` names every component and gives each the secret of its last mention.
  ghost predicate HoldsSecrets(cfg: Config, components: seq<Component>, secrets: map<string, Bytes>) {
    && (forall c | c in components :: SecretOf(cfg, c).Some? && c.name in secrets)
    && (forall name | name in secrets :: exists i :: LastMention(cfg, components, name, secrets[name], i))
  }

  // Component i is the last one called `name`, and it unwraps to `secret`.
  ghost predicate LastMention(cfg: Config, components: seq<Component>, name: string, secret: Bytes, i: int) {
    && 0 <= i < |components| && components[i].name == name
    && SecretOf(cfg, components[i]) == Some(secret)
    && forall j | i < j < |components| :: components[j].name != name
  }

  // `answer` is the right round-two payload for `challenge`, for the pod `core` is bound to.
  ghost predicate Answers(cfg: Config, core: Core, challenge: Challenge, answer: Sealed) {
    && answer.recipient == core.ciphertext.recipient
    && answer.info == RestoreInfo(core.pod, core.boot)
    && answer.body.SecretsPayload? && answer.body.challenge == challenge.id
    && HoldsSecrets(cfg, challenge.components, answer.body.secrets)
  }

  method AnswerChallenge(cfg: Config, core: Core, challenge: Challenge, enc: nat, sealFails: bool)
    returns (r: Option<Sealed>)
    ensures r.Some? ==> Answers(cfg, core, challenge, r.value)
    ensures r.Some? <==> !sealFails && forall c | c in challenge.components :: SecretOf(cfg, c).Some?
  {
    var secrets: map<string, Bytes> := map[];
    for i := 0 to |challenge.components|
      invariant HoldsSecrets(cfg, challenge.components[..i], secrets)
    {
      var c := challenge.components[i];
      var s := SecretOf(cfg, c);
      if s.None? { return None; }
      HoldsOneMore(cfg, challenge.components[..i], secrets, c, s.value);
      assert challenge.components[..i + 1] == challenge.components[..i] + [c];
      secrets := secrets[c.name := s.value];
    }
    assert challenge.components[..|challenge.components|] == challenge.components;
    if sealFails { return None; }
    r := Some(Sealed(core.ciphertext.recipient, RestoreInfo(core.pod, core.boot), enc,
                     SecretsPayload(challenge.id, secrets)));
  }

  lemma HoldsOneMore(cfg: Config, before: seq<Component>, secrets: map<string, Bytes>, c: Component, s: Bytes)
    requires HoldsSecrets(cfg, before, secrets) && SecretOf(cfg, c) == Some(s)
    ensures HoldsSecrets(cfg, before + [c], secrets[c.name := s])
  {
    hide SecretOf;
    var all, more := before + [c], secrets[c.name := s];
    forall name | name in more ensures exists i :: LastMention(cfg, all, name, more[name], i) {
      if name == c.name {
        assert LastMention(cfg, all, name, s, |before|);
      } else {
        var i :| LastMention(cfg, before, name, secrets[name], i);
        assert LastMention(cfg, all, name, more[name], i);
      }
    }
  }

  // A secret comes out exactly when the named generation's registered key is the one the component
  // was sealed to, under an info string naming this Computer, component, object, epoch, generation
  // and fingerprint: a challenge lifted from anywhere else yields nothing.
  lemma SecretAuthentic(cfg: Config, c: Component, s: Bytes)
    ensures SecretOf(cfg, c) == Some(s) <==> SealedToUs(cfg, c, s)
  {
  }

  ghost predicate SealedToUs(cfg: Config, c: Component, s: Bytes) {
    && c.generation in cfg.keypairs && c.fingerprint == FingerprintOf(cfg.keypairs[c.generation].pk)
    && c.enc.Some? && |s| == SECRET_SIZE
    && var to := PublicOf(cfg.keypairs[c.generation].sk);
    c.sealedS == Some(Sealed(to, InfoFor(cfg, c), c.enc.value, ComponentSecret(s)))
  }

  // ---------------------------------------------------------------- the handshake

  function Attempts(cfg: Config): (m: int) ensures m >= 1 {
    if cfg.maxBindAttempts <= 0 then DEFAULT_MAX_BIND_ATTEMPTS else cfg.maxBindAttempts
  }

  function Deadline(cfg: Config): (t: int) ensures t >= 1 {
    if cfg.readyTimeout <= 0 then DEFAULT_READY_TIMEOUT else cfg.readyTimeout
  }

  // The restore payload a POST after `events` must carry: the answer to the latest challenge since
  // the coordinator last forgot one.
  ghost function Latest(events: seq<Event>): Option<Sealed> {
    if events == [] then None
    else match events[|events|-1]
      case Answered(_, answer) => Some(answer)
      case Expired => None
      case _ => Latest(events[..|events|-1])
  }

  // Challenges answered since the coordinator last forgot one.
  ghost function Rounds(events: seq<Event>): nat {
    if events == [] then 0
    else match events[|events|-1]
      case Answered(_, _) => Rounds(events[..|events|-1]) + 1
      case Expired => 0
      case _ => Rounds(events[..|events|-1])
  }

  // Challenges answered in all.
  ghost function AnswerCount(events: seq<Event>): nat {
    if events == [] then 0
    else AnswerCount(events[..|events|-1]) + if events[|events|-1].Answered? then 1 else 0
  }

  // How often the coordinator forgot a challenge.
  ghost function Expiries(events: seq<Event>): nat {
    if events == [] then 0
    else Expiries(events[..|events|-1]) + if events[|events|-1].Expired? then 1 else 0
  }

  ghost predicate MintsOnce(events: seq<Event>) {
    forall i, j | 0 <= i < j < |events| && events[i].Mint? && events[i].granted :: !events[j].Mint?
  }

  ghost predicate AuthorizedOnce(cfg: Config, events: seq<Event>) {
    && (forall i, j | 0 <= i < j < |events| && events[i].Authorized? :: !events[j].Authorized?)
    && (forall e | e in events && e.Authorized? :: e.revision > cfg.bindingRevision)
  }

  ghost predicate OneEnvelope(events: seq<Event>) {
    forall i, j | 0 <= i < j < |events| && events[i].Post? && events[j].Post? :: events[i].core == events[j].core
  }

  ghost predicate SecretsCurrent(events: seq<Event>) {
    forall i | 0 <= i < |events| && events[i].Post? :: events[i].secrets == Latest(events[..i])
  }

  ghost predicate AnswersRight(cfg: Config, events: seq<Event>) {
    forall i, j | 0 <= i < |events| && 0 <= j < |events| && events[i].Answered? && events[j].Post? ::
      Answers(cfg, events[j].core, events[i].challenge, events[i].answer)
  }

  // Everything promised of what a run does to the outside world.
  ghost predicate Disciplined(cfg: Config, events: seq<Event>) {
    && MintsOnce(events) && AuthorizedOnce(cfg, events) && OneEnvelope(events)
    && SecretsCurrent(events) && AnswersRight(cfg, events)
  }

  // A run's history at a glance, recomputed event by event. `Live` holds the one authorization, the
  // envelope first posted, and how the restore transaction stands; a history that broke the
  // discipline is `Broken` for good.
  datatype Watch =
    | Fresh                                          // nothing but refused mints
    | Receipt                                        // a receipt arrived
    | Live(revision: int, core: Option<Core>, secrets: Option<Sealed>, rounds: nat, expiries: nat, answers: nat)
    | Broken

  ghost function See(cfg: Config, w: Watch, e: Event): Watch {
    match e
    case Mint(granted) => if w != Fresh then Broken else if granted then Receipt else Fresh
    case Authorized(r) => if w == Receipt && r > cfg.bindingRevision then Live(r, None, None, 0, 0, 0) else Broken
    case Located(_) => if w.Live? then w else Broken
    case Post(core, secrets) =>
      if w.Live? && (w.core == None || w.core == Some(core)) && secrets == w.secrets
      then w.(core := Some(core)) else Broken
    case Answered(challenge, answer) =>
      if w.Live? && w.core.Some? && Answers(cfg, w.core.value, challenge, answer)
      then w.(secrets := Some(answer), rounds := w.rounds + 1, answers := w.answers + 1) else Broken
    case Expired => if w.Live? then w.(secrets := None, rounds := 0, expiries := w.expiries + 1) else Broken
  }

  ghost function Watched(cfg: Config, events: seq<Event>): Watch {
    if events == [] then Fresh else See(cfg, Watched(cfg, events[..|events|-1]), events[|events|-1])
  }

  lemma Appended(cfg: Config, events: seq<Event>, e: Event)
    ensures Watched(cfg, events + [e]) == See(cfg, Watched(cfg, events), e)
  {
    assert (events + [e])[..|events|] == events;
  }

  // The watch agrees with the reference counts.
  lemma {:induction false} WatchCounts(cfg: Config, events: seq<Event>)
    requires Watched(cfg, events) != Broken
    ensures var w := Watched(cfg, events);
      && Latest(events) == (if w.Live? then w.secrets else None)
      && Rounds(events) == (if w.Live? then w.rounds else 0)
      && Expiries(events) == (if w.Live? then w.expiries else 0)
      && AnswerCount(events) == (if w.Live? then w.answers else 0)
  {
    if events != [] { WatchCounts(cfg, events[..|events|-1]); }
  }

  lemma {:induction false} NeverBroken(cfg: Config, events: seq<Event>, i: nat)
    requires Watched(cfg, events) != Broken && i <= |events|
    ensures Watched(cfg, events[..i]) != Broken
  {
    if i == |events| {
      assert events[..i] == events;
    } else {
      assert events[..|events|-1][..i] == events[..i];
      NeverBroken(cfg, events[..|events|-1], i);
    }
  }

  // What an event at any earlier position still means at the end of the history.
  lemma {:induction false} Remembered(cfg: Config, events: seq<Event>, i: nat)
    requires Watched(cfg, events) != Broken && i < |events|
    ensures var w := Watched(cfg, events); var e := events[i];
      && (e.Mint? && e.granted ==> w != Fresh)
      && (e.Authorized? ==> w.Live? && w.revision == e.revision > cfg.bindingRevision)
      && (e.Post? ==> w.Live? && w.core == Some(e.core))
      && (e.Answered? ==> w.Live? && w.core.Some? && Answers(cfg, w.core.value, e.challenge, e.answer))
  {
    if i < |events| - 1 { Remembered(cfg, events[..|events|-1], i); }
  }

  // At position j the history before it was as the watch saw it there.
  lemma SeenAt(cfg: Config, events: seq<Event>, j: nat)
    requires Watched(cfg, events) != Broken && j < |events|
    ensures Watched(cfg, events[..j]) != Broken && See(cfg, Watched(cfg, events[..j]), events[j]) != Broken
  {
    NeverBroken(cfg, events, j);
    NeverBroken(cfg, events, j + 1);
    assert events[..j + 1][..j] == events[..j];
  }

  // A history the watch never saw broken keeps every promise.
  lemma WatchMeans(cfg: Config, events: seq<Event>)
    requires Watched(cfg, events) != Broken
    ensures Disciplined(cfg, events)
  {
    forall i, j | 0 <= i < j < |events|
      ensures events[i].Mint? && events[i].granted ==> !events[j].Mint?
      ensures events[i].Authorized? ==> !events[j].Authorized?
    {
      SeenAt(cfg, events, j);
      Remembered(cfg, events[..j], i);
    }
    forall i | 0 <= i < |events|
      ensures events[i].Authorized? ==> events[i].revision > cfg.bindingRevision
      ensures events[i].Post? ==> events[i].secrets == Latest(events[..i])
    {
      Remembered(cfg, events, i);
      SeenAt(cfg, events, i);
      WatchCounts(cfg, events[..i]);
    }
    forall i, j | 0 <= i < |events| && 0 <= j < |events| && events[j].Post?
      ensures events[i].Post? ==> events[i].core == events[j].core
      ensures events[i].Answered? ==> Answers(cfg, events[j].core, events[i].challenge, events[i].answer)
    {
      Remembered(cfg, events, i);
      Remembered(cfg, events, j);
    }
  }

  // The watch of a handshake that holds `env`: every POST so far carried it, and the restore
  // transaction stands where the loop's counters say.
  ghost predicate Holding(cfg: Config, events: seq<Event>, env: Envelope, rounds: nat, attempts: nat) {
    var w := Watched(cfg, events);
    && w.Live? && w.revision == env.revision && w.secrets == env.secrets
    && (w.core == None || w.core == Some(env.core))
    && w.rounds == rounds && w.expiries + 1 == attempts
  }

  lemma {:induction false} AuthorizedIn(cfg: Config, events: seq<Event>)
    requires Watched(cfg, events).Live?
    ensures Authorized(Watched(cfg, events).revision) in events
  {
    var before := events[..|events|-1];
    if Watched(cfg, before).Live? {
      AuthorizedIn(cfg, before);
      assert before <= events;
    }
  }

  // One mint attempt after nothing but failed ones: the envelope in hand, a failure after which the
  // handshake stops, or one more failed mint.
  method TryMint(cfg: Config, turn: Turn, before: seq<Event>) returns (env: Reply<Envelope>, events: seq<Event>)
    requires Watched(cfg, before) == Fresh
    ensures Watched(cfg, events) != Broken
    ensures env.Ok? ==> Holding(cfg, events, env.value, 0, 1) && MadeFrom(cfg, turn, env.value.core, env.value.revision)
    ensures env.Ok? ==> Watched(cfg, events).answers == 0
    ensures env.Err? ==> MintFails(cfg, turn, env.fault)
    ensures env.Err? && ClassOf(env.fault).Retry? ==> Watched(cfg, events) == Fresh
    ensures env.Err? ==> Rounds(events) == Expiries(events) == 0
    ensures env.Err? && Watched(cfg, events).Live? ==>
      var w := Watched(cfg, events); w.core == None && w.rounds == w.expiries == 0
  {
    hide MadeFrom, MintFails, Usable;
    var made;
    env, made := MintEnvelope(cfg, turn);
    events := before + made;
    MintWatched(cfg, before, made);
    WatchCounts(cfg, events);
  }

  // How the watch follows one mint: the request, the authorization, then locations only.
  lemma {:induction false} MintWatched(cfg: Config, before: seq<Event>, made: seq<Event>)
    requires Watched(cfg, before) == Fresh
    requires forall i | 0 <= i < |made| ::
      && (i == 0 <==> made[i].Mint?) && (i == 1 <==> made[i].Authorized?)
      && !made[i].Post? && !made[i].Answered? && !made[i].Expired?
      && (made[i].Authorized? ==> made[i].revision > cfg.bindingRevision)
    requires |made| >= 2 ==> made[0].granted
    ensures Watched(cfg, before + made) ==
      if |made| == 0 then Fresh
      else if |made| == 1 then if made[0].granted then Receipt else Fresh
      else Live(made[1].revision, None, None, 0, 0, 0)
  {
    hide Watched, Answers;
    if made == [] {
      assert before + made == before;
    } else {
      var init, last := made[..|made|-1], made[|made|-1];
      assert before + made == (before + init) + [last];
      Appended(cfg, before + init, last);
      MintWatched(cfg, before, init);
    }
  }

  // What one bind POST leads to: an end, or another turn with the envelope as it then stands.
  datatype Next =
    | Return(result: Result)
    | Reanswer(env: Envelope)     // a challenge was answered: send again at once
    | Restart(env: Envelope)      // the challenge expired: restart round one after a pause
    | NotYet(fault: Fault)        // readiness: send the same envelope again while time allows

  // The turn's challenge can be answered: every component unwraps and the answer seals.
  predicate Answerable(cfg: Config, turn: Turn)
    requires turn.bind.Ok? && turn.bind.value.Restore?
  {
    && !turn.answerSealFails
    && forall c | c in turn.bind.value.challenge.components :: SecretOf(cfg, c).Some?
  }

  // One bind POST and what its answer means.
  method PostBind(cfg: Config, turn: Turn, before: seq<Event>, env: Envelope, rounds: nat, attempts: nat)
    returns (next: Next, events: seq<Event>)
    requires Holding(cfg, before, env, rounds, attempts) && rounds <= MAX_RESTORE_ROUNDS && attempts <= Attempts(cfg)
    ensures Watched(cfg, events) != Broken && |events| > 0
    ensures next.Reanswer? ==> Holding(cfg, events, next.env, rounds + 1, attempts) && rounds < MAX_RESTORE_ROUNDS
    ensures next.Restart? ==> Holding(cfg, events, next.env, 0, attempts + 1) && attempts < Attempts(cfg)
    ensures next.Reanswer? || next.Restart? ==> next.env.core == env.core && next.env.revision == env.revision
    ensures next.NotYet? ==> Holding(cfg, events, env, rounds, attempts) && events[|events|-1].Post?
    ensures Watched(cfg, before).Live? && Watched(cfg, events).Live? &&
      Watched(cfg, events).answers == Watched(cfg, before).answers + if next.Reanswer? then 1 else 0
    ensures next.Return? ==>
      && Holding(cfg, events, env, rounds, attempts)
      && events[|events|-1].Post?
      && (next.result.Bound? ==> next.result.revision == env.revision)
      && (next.result == Failed(RestoreDiverged) ==> rounds == MAX_RESTORE_ROUNDS)
      && (next.result == Failed(RestoreExpired) ==> attempts == Attempts(cfg))
    ensures next.Return? && next.result.Bound? <==> turn.bind.Ok? && turn.bind.value.Token?
    ensures next.Return? && next.result.Bound? ==> turn.bind == Ok(Token(next.result.ct))
    // A challenge is answered, unless that cannot be done or the rounds are spent.
    ensures turn.bind.Ok? && turn.bind.value.Restore? ==>
      if rounds == MAX_RESTORE_ROUNDS then next == Return(Failed(RestoreDiverged))
      else if Answerable(cfg, turn) then next.Reanswer? else next == Return(Failed(Unanswerable))
    // One the coordinator forgot is started again, unless the attempts are spent.
    ensures turn.bind.Err? && ChallengeExpired(turn.bind.fault) ==>
      if attempts == Attempts(cfg) then next == Return(Failed(RestoreExpired)) else next.Restart?
    ensures turn.bind.Err? && !ChallengeExpired(turn.bind.fault) ==>
      if ClassOf(turn.bind.fault).Retry? then next == NotYet(turn.bind.fault)
      else next == Return(Failed(ClassOf(turn.bind.fault).failure))
  {
    Appended(cfg, before, Post(env.core, env.secrets));
    events := before + [Post(env.core, env.secrets)];
    if turn.bind.Ok? {
      if turn.bind.value.Token? { return Return(Bound(turn.bind.value.ct, env.revision)), events; }
      if rounds + 1 > MAX_RESTORE_ROUNDS { return Return(Failed(RestoreDiverged)), events; }
      var challenge := turn.bind.value.challenge;
      var answer := AnswerChallenge(cfg, env.core, challenge, turn.answerEnc, turn.answerSealFails);
      if answer.None? { return Return(Failed(Unanswerable)), events; }
      Appended(cfg, events, Answered(challenge, answer.value));
      return Reanswer(env.(secrets := answer)), events + [Answered(challenge, answer.value)];
    }
    if ChallengeExpired(turn.bind.fault) {
      if attempts >= Attempts(cfg) { return Return(Failed(RestoreExpired)), events; }
      Appended(cfg, events, Expired);
      return Restart(env.(secrets := None)), events + [Expired];
    }
    var verdict := ClassOf(turn.bind.fault);
    next := if verdict.Retry? then NotYet(turn.bind.fault) else Return(Failed(verdict.failure));
  }

  // A result matches what happened: success reports the one authorized revision after a POST, and a
  // restore budget is reported spent only when it is.
  ghost predicate Honest(cfg: Config, events: seq<Event>, r: Result) {
    && Rounds(events) <= MAX_RESTORE_ROUNDS && Expiries(events) < Attempts(cfg)
    && (r.Bound? ==> Authorized(r.revision) in events && events != [] && events[|events|-1].Post?)
    && (r == Failed(RestoreDiverged) ==> Rounds(events) == MAX_RESTORE_ROUNDS)
    && (r == Failed(RestoreExpired) ==> Expiries(events) == Attempts(cfg) - 1)
  }

  // What the turns themselves took, and the pauses before k restarts of the restore.
  function Spent(env: nat -> Turn, n: nat): int {
    if n == 0 then 0 else Spent(env, n - 1) + env(n - 1).elapsed + env(n - 1).overslept
  }

  function PauseSum(k: nat): int { if k == 0 then 0 else PauseSum(k - 1) + k * 500 * MILLISECOND }

  // The most time `turns` turns can have taken, of which `answers` answered a challenge at once, `expiries`
  // restarted the restore, and the last is not slept on.
  function MostElapsed(env: nat -> Turn, turns: nat, answers: nat, expiries: nat): int
    requires answers + expiries < turns
  {
    Spent(env, turns) + WaitSum(turns - 1 - answers - expiries) + PauseSum(expiries)
  }

  predicate Misconfigured(cfg: Config) {
    (!cfg.ephemeral && cfg.key == []) || cfg.bindingRevision < 0 || (!cfg.ephemeral && cfg.captureGen <= 0)
  }

  // Why the last turn ended the handshake. `posted`: it had an envelope to post.
  ghost predicate Justified(cfg: Config, last: Turn, posted: bool, f: Failure) {
    match f
    case BadConfig => false
    case ContextEnded => last.ctxEnded || last.sleepCut
    case NotReady(cause) =>
      ClassOf(cause).Retry? && if posted then last.bind == Err(cause) else MintFails(cfg, last, cause)
    case MintFailed(cause) => !posted && ClassOf(cause).Stop? && MintFails(cfg, last, cause)
    case RestoreDiverged => posted && last.bind.Ok? && last.bind.value.Restore?
    case Unanswerable => posted && last.bind.Ok? && last.bind.value.Restore? && !Answerable(cfg, last)
    case RestoreExpired => posted && last.bind.Err? && ChallengeExpired(last.bind.fault)
    case _ => posted && last.bind.Err? && !ChallengeExpired(last.bind.fault) && ClassOf(last.bind.fault) == Stop(f)
  }

  // The first n turns went on: the context had not ended, and a sleep that was cut would not have been
  // asked for, a challenge being answered at once.
  ghost predicate Heeded(env: nat -> Turn, n: int) {
    forall i | 0 <= i < n :: !env(i).ctxEnded && (env(i).sleepCut ==> env(i).bind.Ok? && env(i).bind.value.Restore?)
  }

  // So a readiness fault before the deadline is always followed by another turn.
  ghost predicate Warranted(cfg: Config, env: nat -> Turn, turns: nat, events: seq<Event>, r: Result) {
    && (turns == 0 <==> Misconfigured(cfg)) && (turns == 0 ==> r == Failed(BadConfig))
    && (turns > 0 && r.Failed? ==> Justified(cfg, env(turns - 1), Posted(events), r.failure))
    && (turns > 0 && r.Failed? && !r.failure.ContextEnded? && Posted(events) ==> JustPosted(events))
    && Heeded(env, turns - 1) && (turns > 0 && env(turns - 1).ctxEnded ==> r == Failed(ContextEnded))
    && (r.Failed? && r.failure.NotReady? ==>
          && AnswerCount(events) + Expiries(events) < turns
          && MostElapsed(env, turns, AnswerCount(events), Expiries(events)) >= Deadline(cfg))
  }

  method Bind(cfg: Config, env: nat -> Turn) returns (r: Result, events: seq<Event>, turns: nat)
    ensures Disciplined(cfg, events) && Honest(cfg, events, r)
    ensures Warranted(cfg, env, turns, events, r)
    ensures turns <= WaitsWithin(Deadline(cfg)) + (MAX_RESTORE_ROUNDS + 1) * Attempts(cfg)
    ensures r.Bound? ==> turns > 0 && env(turns - 1).bind == Ok(Token(r.ct))
    // Every POST carries the envelope made from one turn's pod identity and receipt, whose revision is
    // the one authorized.
    ensures (exists e :: e in events && e.Post?) ==> exists t: nat :: t < turns && OneReceipt(cfg, env(t), events)
  {
    hide MadeFrom, Disciplined;
    ghost var minting;
    r, events, turns, minting := Handshake(cfg, env);
    WatchMeans(cfg, events);
    WatchCounts(cfg, events);
    if r.Bound? { AuthorizedIn(cfg, events); }
    FromOneReceipt(cfg, env, turns, events);
  }

  lemma FromOneReceipt(cfg: Config, env: nat -> Turn, turns: nat, events: seq<Event>)
    requires var w := Watched(cfg, events);
      && w != Broken
      && (w.Live? && w.core.Some? ==> exists t: nat :: t < turns && MadeFrom(cfg, env(t), w.core.value, w.revision))
    ensures (exists e :: e in events && e.Post?) ==> exists t: nat :: t < turns && OneReceipt(cfg, env(t), events)
  {
    hide MadeFrom, OneReceipt, Watched;
    if exists e :: e in events && e.Post? {
      var i :| 0 <= i < |events| && events[i].Post?;
      Remembered(cfg, events, i);
      var w := Watched(cfg, events);
      var t: nat :| t < turns && MadeFrom(cfg, env(t), w.core.value, w.revision);
      PostsFrom(cfg, env(t), events);
    }
  }

  // What the answers of a whole handshake give away: only to the pod the envelope was posted to, only
  // under its restore domain, and for each name a secret that a component of that name in the
  // challenge held sealed to a registered keypair for this Computer.
  lemma AnswersDisclose(cfg: Config, events: seq<Event>, i: nat, j: nat, sk: PrivateKey, info: Info)
    requires Disciplined(cfg, events) && i < |events| && j < |events| && events[i].Answered? && events[j].Post?
    ensures var answer, core := events[i].answer, events[j].core;
      && Open(sk, answer, answer.enc, info) ==
           (if PublicOf(sk) == core.ciphertext.recipient && info == RestoreInfo(core.pod, core.boot)
            then Some(answer.body) else None)
      && answer.body.SecretsPayload? && answer.body.challenge == events[i].challenge.id
      && (forall name | name in answer.body.secrets :: exists c ::
            c in events[i].challenge.components && c.name == name && SealedToUs(cfg, c, answer.body.secrets[name]))
      && (forall c | c in events[i].challenge.components :: c.name in answer.body.secrets)
  {
    hide SecretOf, SealedToUs, MintsOnce, AuthorizedOnce, OneEnvelope, SecretsCurrent;
    var answer, core, parts := events[i].answer, events[j].core, events[i].challenge.components;
    assert Answers(cfg, core, events[i].challenge, answer);
    forall name | name in answer.body.secrets
      ensures exists c :: c in parts && c.name == name && SealedToUs(cfg, c, answer.body.secrets[name])
    {
      var m :| LastMention(cfg, parts, name, answer.body.secrets[name], m);
      SecretAuthentic(cfg, parts[m], answer.body.secrets[name]);
      assert parts[m] in parts;
    }
  }

  // Every POST and every authorization in a history belongs to the receipt `turn` granted.
  ghost predicate OneReceipt(cfg: Config, turn: Turn, events: seq<Event>) {
    && (forall e | e in events && e.Post? :: exists r :: MadeFrom(cfg, turn, e.core, r))
    && (forall e | e in events && e.Authorized? ::
          turn.mint.Ok? && turn.mint.value.Some? && e.revision == turn.mint.value.value.revision)
  }

  lemma PostsFrom(cfg: Config, turn: Turn, events: seq<Event>)
    requires var w := Watched(cfg, events); w.Live? && w.core.Some? && MadeFrom(cfg, turn, w.core.value, w.revision)
    ensures OneReceipt(cfg, turn, events)
  {
    hide IsBindPayload;
    forall i | 0 <= i < |events|
      ensures events[i].Post? ==> MadeFrom(cfg, turn, events[i].core, Watched(cfg, events).revision)
      ensures events[i].Authorized? ==> events[i].revision == turn.mint.value.value.revision
    {
      Remembered(cfg, events, i);
    }
  }

  lemma NothingYet(cfg: Config)
    ensures Watched(cfg, []) == Fresh && StandsAt(cfg, [], Standing(None, 0, 1), 0)
    ensures Bears(cfg, [], Failed(BadConfig))
  {
  }

  // Between turns the handshake may end for want of time or of a caller.
  lemma MayEnd(cfg: Config, events: seq<Event>, st: Standing, answered: nat)
    requires StandsAt(cfg, events, st, answered)
    ensures 1 <= st.attempts <= Attempts(cfg) && st.rounds <= MAX_RESTORE_ROUNDS
    ensures forall r: Result | r.Failed? && (r.failure.ContextEnded? || r.failure.NotReady?) :: Bears(cfg, events, r)
    ensures var w := Watched(cfg, events);
      w.Live? && w.core.Some? ==>
        st.held.Some? && w.core.value == st.held.value.core && w.revision == st.held.value.revision
  {
    hide Watched;
  }

  lemma Interrupted(cfg: Config, turn: Turn, posted: bool)
    ensures turn.ctxEnded || turn.sleepCut ==> Justified(cfg, turn, posted, ContextEnded)
  {
  }

  // How the handshake stands between turns: the envelope held, the challenges answered since the last
  // restart, and the attempts at the restore.
  datatype Standing = Standing(held: Option<Envelope>, rounds: nat, attempts: nat)

  ghost predicate StandsAt(cfg: Config, events: seq<Event>, st: Standing, answered: nat) {
    && st.rounds <= MAX_RESTORE_ROUNDS && 1 <= st.attempts <= Attempts(cfg)
    && (st.held.None? ==> Watched(cfg, events) == Fresh && st.rounds == 0 && st.attempts == 1 && answered == 0)
    && (st.held.Some? ==>
          Holding(cfg, events, st.held.value, st.rounds, st.attempts) && Watched(cfg, events).answers == answered)
  }

  // Whatever is posted is the envelope held, or the one made in this turn.
  ghost predicate From(cfg: Config, turn: Turn, st: Standing, core: Core, revision: int) {
    if st.held.Some? then core == st.held.value.core && revision == st.held.value.revision
    else MadeFrom(cfg, turn, core, revision)
  }

  // How a history the watch follows bears a result out.
  ghost predicate Bears(cfg: Config, events: seq<Event>, r: Result) {
    var w := Watched(cfg, events);
    && w != Broken
    && (w.Live? ==> w.rounds <= MAX_RESTORE_ROUNDS && w.expiries < Attempts(cfg))
    && (r.Bound? ==> w.Live? && w.revision == r.revision && events != [] && events[|events|-1].Post?)
    && (r == Failed(RestoreDiverged) ==> w.Live? && w.rounds == MAX_RESTORE_ROUNDS)
    && (r == Failed(RestoreExpired) ==> w.Live? && w.expiries == Attempts(cfg) - 1)
  }

  // Some bind POST was made; the last thing done was one.
  ghost predicate Posted(events: seq<Event>) { exists i :: 0 <= i < |events| && events[i].Post? }

  ghost predicate JustPosted(events: seq<Event>) { events != [] && events[|events|-1].Post? }

  // What a turn leads to: the end, another turn at once or after a pause, or a wait for readiness.
  datatype Outcome =
    | Done(result: Result)
    | Again(st: Standing)
    | Paused(st: Standing)
    | Waiting(st: Standing, fault: Fault)

  // One turn: mint if no envelope is held, then the bind POST.
  method TakeTurn(cfg: Config, turn: Turn, before: seq<Event>, st: Standing, ghost answered: nat)
    returns (out: Outcome, events: seq<Event>)
    requires StandsAt(cfg, before, st, answered)
    ensures out.Done? ==> Bears(cfg, events, out.result)
    ensures out.Done? && out.result.Bound? ==> turn.bind == Ok(Token(out.result.ct))
    ensures out.Done? && out.result.Failed? ==> Justified(cfg, turn, Posted(events), out.result.failure)
    ensures out.Done? && out.result.Failed? ==> !out.result.failure.NotReady?
    ensures out.Done? || out.Waiting? ==> (Posted(events) ==> JustPosted(events))
    ensures out.Again? ==> turn.bind.Ok? && turn.bind.value.Restore?
    ensures out.Again? ==>
      && StandsAt(cfg, events, out.st, answered + 1) && out.st.rounds == st.rounds + 1 && out.st.attempts == st.attempts
    ensures out.Paused? ==>
      && StandsAt(cfg, events, out.st, answered) && out.st.rounds == 0 && out.st.attempts == st.attempts + 1
    ensures out.Waiting? ==>
      && StandsAt(cfg, events, out.st, answered) && out.st.rounds == st.rounds && out.st.attempts == st.attempts
      && Justified(cfg, turn, Posted(events), NotReady(out.fault))
    ensures !out.Done? && out.st.held.Some? ==> From(cfg, turn, st, out.st.held.value.core, out.st.held.value.revision)
    ensures !out.Done? && st.held.Some? ==> out.st.held.Some?
    ensures var w := Watched(cfg, events);
      w != Broken && (w.Live? && w.core.Some? ==> From(cfg, turn, st, w.core.value, w.revision))
  {
    hide MadeFrom, Watched, ClassOf, MintFails, Answerable, Latest, Rounds, Expiries, AnswerCount, Usable;
    if turn.bind.Err? { StopsAs(turn.bind.fault); }
    var held, rounds, attempts := st.held, st.rounds, st.attempts;
    events := before;
    if held.None? {
      var minted;
      minted, events := TryMint(cfg, turn, before);
      if minted.Err? {
        var fault := minted.fault;
        NotPosted(cfg, events);
        if ClassOf(fault).Stop? { return Done(Failed(MintFailed(fault))), events; }
        return Waiting(st, fault), events;
      }
      held := Some(minted.value);
    }
    var next;
    next, events := PostBind(cfg, turn, events, held.value, rounds, attempts);
    match next {
      case Return(result) => out := Done(result);
      case Reanswer(e) => out := Again(Standing(Some(e), rounds + 1, attempts));
      case Restart(e) => out := Paused(Standing(Some(e), 0, attempts + 1));
      case NotYet(fault) => out := Waiting(Standing(held, rounds, attempts), fault);
    }
  }

  // A mint attempt posts nothing.
  lemma NotPosted(cfg: Config, events: seq<Event>)
    requires var w := Watched(cfg, events); w != Broken && (w.Live? ==> w.core.None?)
    ensures !Posted(events)
  {
    hide Watched;
    forall i | 0 <= i < |events| ensures !events[i].Post? { Remembered(cfg, events, i); }
  }

  // The handshake loop, with what it did seen through the watch. `minting` is the turn whose receipt
  // the held envelope was made from.
  method Handshake(cfg: Config, env: nat -> Turn)
    returns (r: Result, events: seq<Event>, turns: nat, ghost minting: nat)
    ensures Bears(cfg, events, r)
    ensures turns <= WaitsWithin(Deadline(cfg)) + (MAX_RESTORE_ROUNDS + 1) * Attempts(cfg)
    ensures r.Bound? ==> turns > 0 && env(turns - 1).bind == Ok(Token(r.ct))
    ensures var w := Watched(cfg, events);
      w.Live? && w.core.Some? ==> minting < turns && MadeFrom(cfg, env(minting), w.core.value, w.revision)
    ensures Warranted(cfg, env, turns, events, r)
  {
    hide MadeFrom, Watched, ClassOf, MintFails, Answerable, Latest, Rounds, Expiries, AnswerCount, WaitsWithin;
    hide StandsAt, Bears, Justified, Posted, JustPosted, Clocked, ConvergenceBackoff, MostElapsed;
    ClockStarts(env);
    events, turns, minting := [], 0, 0;
    NothingYet(cfg);
    if Misconfigured(cfg) { return Failed(BadConfig), events, turns, minting; }
    var now, deadline := 0, Deadline(cfg);
    var convergeWaits: nat := 0;
    var st := Standing(None, 0, 1);
    ghost var answered: nat := 0;
    while true
      invariant StandsAt(cfg, events, st, answered)
      invariant st.held.Some? ==>
        minting < turns && MadeFrom(cfg, env(minting), st.held.value.core, st.held.value.revision)
      invariant 1 <= st.attempts && Clocked(env, turns, convergeWaits, st.attempts - 1, now)
      invariant convergeWaits <= WaitsWithin(deadline) && Heeded(env, turns)
      invariant turns == convergeWaits + answered + st.attempts - 1
      invariant turns <= convergeWaits + (MAX_RESTORE_ROUNDS + 1) * (st.attempts - 1) + st.rounds
      decreases WaitsWithin(deadline) + (MAX_RESTORE_ROUNDS + 1) * Attempts(cfg) - turns
    {
      var turn := env(turns);
      turns := turns + 1;
      MayEnd(cfg, events, st, answered);
      Interrupted(cfg, turn, Posted(events));
      if turn.ctxEnded { return Failed(ContextEnded), events, turns, minting; }
      ghost var start := now;
      now := now + turn.elapsed;
      ClockGoesOn(env, turns - 1, convergeWaits, st.attempts - 1, start);
      var out;
      out, events := TakeTurn(cfg, turn, events, st, answered);
      minting := if st.held.Some? then minting else turns - 1;
      match out {
        case Done(result) => return result, events, turns, minting;
        case Again(next) =>
          st, answered := next, answered + 1;
          MayEnd(cfg, events, st, answered);
        case Paused(next) =>
          st := next;
          MayEnd(cfg, events, st, answered);
          Interrupted(cfg, turn, Posted(events));
          if turn.sleepCut { return Failed(ContextEnded), events, turns, minting; }
          now := now + (st.attempts - 1) * 500 * MILLISECOND + turn.overslept;
        case Waiting(next, notYet) =>
          st := next;
          MayEnd(cfg, events, st, answered);
          Interrupted(cfg, turn, Posted(events));
          if now >= deadline {
            WaitedOut(cfg, env, turns, events, st, answered, now, convergeWaits);
            return Failed(NotReady(notYet)), events, turns, minting;
          }
          OneMoreWait(env, turns, st.attempts - 1, deadline, now, convergeWaits);
          convergeWaits := convergeWaits + 1;
          if turn.sleepCut { return Failed(ContextEnded), events, turns, minting; }
          now := now + ConvergenceBackoff(convergeWaits) + turn.overslept;
      }
    }
  }

  // The clock after `turns` turns with so many waits and restarts, between the least and the most it can be.
  ghost predicate Clocked(env: nat -> Turn, turns: nat, waits: nat, restarts: nat, now: int) {
    WaitSum(waits) <= now <= Spent(env, turns) + WaitSum(waits) + PauseSum(restarts)
  }

  lemma ClockStarts(env: nat -> Turn)
    ensures Clocked(env, 0, 0, 0, 0)
  {
  }

  // However a turn is followed up, the clock stays within its bounds.
  lemma ClockGoesOn(env: nat -> Turn, turns: nat, waits: nat, restarts: nat, start: int)
    requires Clocked(env, turns, waits, restarts, start)
    ensures var turn := env(turns); var now := start + turn.elapsed;
      && Clocked(env, turns + 1, waits, restarts, now)
      && Clocked(env, turns + 1, waits + 1, restarts, now + ConvergenceBackoff(waits + 1) + turn.overslept)
      && Clocked(env, turns + 1, waits, restarts + 1, now + (restarts + 1) * 500 * MILLISECOND + turn.overslept)
  {
  }

  // Giving up for lack of readiness, the deadline has passed by any reckoning.
  lemma WaitedOut(cfg: Config, env: nat -> Turn, turns: nat, events: seq<Event>, st: Standing, answered: nat, now: int,
                  waits: nat)
    requires StandsAt(cfg, events, st, answered) && 1 <= st.attempts && turns == waits + answered + st.attempts
    requires Deadline(cfg) <= now && Clocked(env, turns, waits, st.attempts - 1, now)
    ensures AnswerCount(events) + Expiries(events) < turns
    ensures MostElapsed(env, turns, AnswerCount(events), Expiries(events)) >= Deadline(cfg)
  {
    hide Watched, Latest, Rounds, Expiries, AnswerCount;
    WatchCounts(cfg, events);
  }

  // One more convergence wait fits the budget while the clock is before the deadline.
  lemma OneMoreWait(env: nat -> Turn, turns: nat, restarts: nat, deadline: int, now: int, waits: nat)
    requires Clocked(env, turns, waits, restarts, now) && now < deadline && waits <= WaitsWithin(deadline)
    ensures waits + 1 <= WaitsWithin(deadline)
  {
    var w := WaitsWithin(deadline);
    assert WaitSum(w) >= deadline;
  }
}
