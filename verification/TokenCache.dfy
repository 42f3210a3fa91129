// The storage-token cache under concurrent artifact calls (internal/artifacts/artifacts.go).
//
// tokenFor and drop each run under the store's mutex, so they are single steps; between them any
// number of calls interleave, and time passes.
module TokenCache {
  import opened Common

  const REFRESH_BEFORE := 300 * SECOND

  // A token object: `id` is its identity, one per mint.
  datatype Token = Token(id: nat, from: string, writable: bool, expiresAt: int)

  // What Portal put into a fresh token, or its refusal.
  datatype Minted = Grants(writable: bool, expiresAt: int) | Refuses

  datatype Cache = Cache(tokens: map<string, Token>, next: nat)

  datatype Handed = Gives(token: Token) | Full | MintFailed

  // Whether the cached token will not do.
  predicate Stale(c: Cache, from: string, write: bool, now: int) {
    from !in c.tokens || now >= c.tokens[from].expiresAt - REFRESH_BEFORE || (write && !c.tokens[from].writable)
  }

  // tokenFor, as one step.
  function HandOut(c: Cache, from: string, write: bool, now: int, minted: Minted): (Cache, Handed) {
    if Stale(c, from, write, now) then
      if minted.Refuses? then (c, MintFailed)
      else
        var t := Token(c.next, from, minted.writable, minted.expiresAt);
        (Cache(c.tokens[from := t], c.next + 1), if write && !t.writable then Full else Gives(t))
    else (c, Gives(c.tokens[from]))
  }

  // drop, as one step: forget the token unless another call already replaced it.
  function Forget(c: Cache, from: string, t: Token): Cache {
    if from in c.tokens && c.tokens[from] == t then c.(tokens := c.tokens - {from}) else c
  }

  // ---------------------------------------------------------------- calls in flight

  datatype Phase =
    | Wanting                      // about to ask for a token
    | Holding(token: Token)        // about to send with it
    | Refused(token: Token)        // storage answered 401 to the first send
    | Done

  // `sent` is every token the call has sent with.
  datatype Call = Call(from: string, write: bool, attempt: nat, phase: Phase, sent: seq<Token>)

  datatype World = World(now: int, cache: Cache, dropped: set<Token>, calls: map<nat, Call>)

  datatype Step =
    | Begin(call: nat, from: string, write: bool)
    | Acquire(call: nat, minted: Minted)
    | Send(call: nat, unauthorized: bool)
    | DropToken(call: nat)
    | Pass(time: nat)

  const Init := World(0, Cache(map[], 0), {}, map[])

  predicate Enabled(w: World, step: Step) {
    match step
    case Begin(c, _, _) => c !in w.calls
    case Acquire(c, _) => c in w.calls && w.calls[c].phase.Wanting?
    case Send(c, _) => c in w.calls && w.calls[c].phase.Holding?
    case DropToken(c) => c in w.calls && w.calls[c].phase.Refused?
    case Pass(_) => true
  }

  function Put(w: World, c: nat, call: Call): World { w.(calls := w.calls[c := call]) }

  function Apply(w: World, step: Step): World
    requires Enabled(w, step)
  {
    match step
    case Begin(c, from, write) => Put(w, c, Call(from, write, 1, Wanting, []))
    case Acquire(c, minted) =>
      var call := w.calls[c];
      var (cache, handed) := HandOut(w.cache, call.from, call.write, w.now, minted);
      Put(w.(cache := cache), c, call.(phase := if handed.Gives? then Holding(handed.token) else Done))
    case Send(c, unauthorized) =>
      var call := w.calls[c];
      var t := call.phase.token;
      Put(w, c, call.(sent := call.sent + [t], phase := if call.attempt == 1 && unauthorized then Refused(t) else Done))
    case DropToken(c) =>
      var call := w.calls[c];
      var t := call.phase.token;
      Put(w.(cache := Forget(w.cache, call.from, t), dropped := w.dropped + {t}), c,
          call.(attempt := 2, phase := Wanting))
    case Pass(time) => w.(now := w.now + time)
  }

  ghost function Run(steps: seq<Step>): Option<World> {
    if steps == [] then Some(Init)
    else
      var before := Run(steps[..|steps|-1]);
      var step := steps[|steps|-1];
      if before.Some? && Enabled(before.value, step) then Some(Apply(before.value, step)) else None
  }

  // ---------------------------------------------------------------- the invariant

  ghost predicate CacheOk(w: World) {
    && (forall f | f in w.cache.tokens :: w.cache.tokens[f].from == f && w.cache.tokens[f].id < w.cache.next)
    && DistinctIds(w.cache.tokens)
    && (forall t | t in w.dropped :: t.id < w.cache.next)
    && (forall f, t | f in w.cache.tokens && t in w.dropped :: w.cache.tokens[f].id != t.id)
  }

  ghost predicate DistinctIds(tokens: map<string, Token>) {
    forall f, g | f in tokens && g in tokens && f != g :: tokens[f].id != tokens[g].id
  }

  // Token objects are told apart by their identity.
  ghost predicate HeldOk(w: World, t: Token, call: Call) {
    && t.id < w.cache.next && t.from == call.from && (call.write ==> t.writable)
    && (call.from in w.cache.tokens && w.cache.tokens[call.from].id == t.id ==> w.cache.tokens[call.from] == t)
    && (forall f | f in w.cache.tokens && w.cache.tokens[f].id == t.id :: f == t.from)
  }

  ghost predicate CallOk(w: World, call: Call) {
    && (call.attempt == 1 || call.attempt == 2)
    && (!call.phase.Done? ==> |call.sent| == if call.attempt == 2 || call.phase.Refused? then 1 else 0)
    && |call.sent| <= call.attempt
    && (forall i | 0 <= i < |call.sent| :: (call.write ==> call.sent[i].writable) && call.sent[i].from == call.from)
    && (call.attempt == 2 ==> |call.sent| >= 1 && call.sent[0] in w.dropped)
    && (|call.sent| == 2 ==> call.sent[0].id != call.sent[1].id)
    && (call.phase.Holding? || call.phase.Refused? ==> HeldOk(w, call.phase.token, call))
    && (call.phase.Refused? ==> call.attempt == 1 && call.sent == [call.phase.token])
    && (call.phase.Holding? && call.attempt == 2 ==> call.sent[0].id != call.phase.token.id)
  }

  ghost predicate Inv(w: World) {
    CacheOk(w) && forall c | c in w.calls :: CallOk(w, w.calls[c])
  }

  // Only the cache entry of one key ever changes, to a fresh token or to none, so what other calls know
  // stays true.
  ghost predicate Follows(c: Cache, c': Cache) {
    && c.next <= c'.next
    && (forall f | f in c'.tokens ::
          || (f in c.tokens && c'.tokens[f] == c.tokens[f])
          || c'.tokens[f].id >= c.next)
  }

  ghost predicate CacheMoves(w: World, w': World) {
    Follows(w.cache, w'.cache) && w.dropped <= w'.dropped
  }

  lemma CallKept(w: World, w': World, call: Call)
    requires CallOk(w, call) && CacheMoves(w, w')
    ensures CallOk(w', call)
  {
  }

  lemma CallStep(w: World, w': World, c: nat, call: Call)
    requires Inv(w) && CacheOk(w') && CacheMoves(w, w') && CallOk(w', call) && w'.calls == w.calls[c := call]
    ensures Inv(w')
  {
    forall d | d in w'.calls ensures CallOk(w', w'.calls[d]) {
      if d != c { CallKept(w, w', w.calls[d]); }
    }
  }

  // Handing out a token keeps the cache sound, and what is handed out is good for the call.
  lemma HandOutOk(w: World, w': World, call: Call, minted: Minted)
    requires CacheOk(w) && w'.dropped == w.dropped
    requires w'.cache == HandOut(w.cache, call.from, call.write, w.now, minted).0
    ensures CacheOk(w') && CacheMoves(w, w')
    ensures var handed := HandOut(w.cache, call.from, call.write, w.now, minted).1;
      handed.Gives? ==> HeldOk(w', handed.token, call) && forall t | t in w.dropped :: t.id != handed.token.id
  {
    if w'.cache == w.cache {
      if call.from in w.cache.tokens { CachedOk(w, w', call.from); }
    } else {
      FreshOk(w, w', Token(w.cache.next, call.from, minted.writable, minted.expiresAt));
    }
  }

  // A token found in the cache is told apart from every other cached or dropped one.
  lemma CachedOk(w: World, w': World, from: string)
    requires CacheOk(w) && w'.dropped == w.dropped && w'.cache == w.cache && from in w.cache.tokens
    ensures CacheOk(w')
    ensures forall f | f in w.cache.tokens && w.cache.tokens[f].id == w.cache.tokens[from].id :: f == from
    ensures w.cache.tokens[from].from == from
    ensures forall t | t in w.dropped :: t.id != w.cache.tokens[from].id
  {
  }

  // A freshly minted token takes its key's place in the cache.
  lemma FreshOk(w: World, w': World, t: Token)
    requires CacheOk(w) && w'.dropped == w.dropped && t.id == w.cache.next
    requires w'.cache == Cache(w.cache.tokens[t.from := t], w.cache.next + 1)
    ensures CacheOk(w') && CacheMoves(w, w')
    ensures forall f | f in w'.cache.tokens && w'.cache.tokens[f].id == t.id :: f == t.from
    ensures forall d | d in w.dropped :: d.id != t.id
  {
    hide DistinctIds;
    var was, now := w.cache.tokens, w'.cache.tokens;
    assert forall f | f in now :: now[f].id == t.id || (f in was && now[f] == was[f]);
    DistinctWith(was, now, t);
  }

  lemma DistinctWith(was: map<string, Token>, now: map<string, Token>, t: Token)
    requires forall f | f in was :: was[f].id < t.id
    requires DistinctIds(was) && now == was[t.from := t]
    ensures DistinctIds(now)
    ensures forall f | f in now && now[f].id == t.id :: f == t.from
    ensures forall f | f in now :: now[f].from == f || (f in was && now[f] == was[f])
  {
    forall f, g | f in now && g in now && f != g ensures now[f].id != now[g].id {
      if f != t.from && g != t.from { assert was[f].id != was[g].id; }
    }
  }

  lemma AcquireStep(w: World, c: nat, minted: Minted)
    requires Inv(w) && Enabled(w, Acquire(c, minted))
    ensures Inv(Apply(w, Acquire(c, minted)))
  {
    var w' := Apply(w, Acquire(c, minted));
    HandOutOk(w, w', w.calls[c], minted);
    CallStep(w, w', c, w'.calls[c]);
  }

  lemma DropStep(w: World, c: nat)
    requires Inv(w) && Enabled(w, DropToken(c))
    ensures Inv(Apply(w, DropToken(c)))
  {
    var w' := Apply(w, DropToken(c));
    assert HeldOk(w, w.calls[c].phase.token, w.calls[c]);
    CallStep(w, w', c, w'.calls[c]);
  }

  lemma StepKeepsInv(w: World, step: Step)
    requires Inv(w) && Enabled(w, step)
    ensures Inv(Apply(w, step))
  {
    var w' := Apply(w, step);
    match step {
      case Acquire(c, minted) => AcquireStep(w, c, minted);
      case DropToken(c) => DropStep(w, c);
      case Begin(c, _, _) => CallStep(w, w', c, w'.calls[c]);
      case Send(c, _) => CallStep(w, w', c, w'.calls[c]);
      case Pass(_) => forall d | d in w.calls ensures CallOk(w', w.calls[d]) { CallKept(w, w', w.calls[d]); }
    }
  }

  lemma {:induction false} RunKeepsInv(steps: seq<Step>)
    requires Run(steps).Some?
    ensures Inv(Run(steps).value)
  {
    if steps != [] {
      var before := steps[..|steps|-1];
      RunKeepsInv(before);
      StepKeepsInv(Run(before).value, steps[|steps|-1]);
    }
  }

  // ---------------------------------------------------------------- main results

  // In every interleaving, a token that was dropped is never handed out again.
  lemma NeverHandedOutAgain(steps: seq<Step>, c: nat)
    requires steps != [] && Run(steps).Some? && steps[|steps|-1].Acquire? && steps[|steps|-1].call == c
    requires Run(steps).value.calls[c].phase.Holding?
    ensures var w := Run(steps[..|steps|-1]).value; var t := Run(steps).value.calls[c].phase.token;
      && (forall d | d in w.dropped :: d.id != t.id)
      // and what is handed out from the cache is not about to expire
      && (t.id < w.cache.next ==> w.now < t.expiresAt - REFRESH_BEFORE)
  {
    RunKeepsInv(steps[..|steps|-1]);
  }

  lemma {:induction false} DroppedForGood(steps: seq<Step>, k: nat)
    requires Run(steps).Some? && k <= |steps|
    ensures Run(steps[..k]).Some? && Run(steps[..k]).value.dropped <= Run(steps).value.dropped
  {
    if k == |steps| {
      assert steps[..k] == steps;
    } else {
      assert steps[..|steps|-1][..k] == steps[..k];
      DroppedForGood(steps[..|steps|-1], k);
    }
  }

  // Each call sends at most twice, the second time with another token, and a write never with one that
  // only reads.
  lemma TwoSendsTwoTokens(steps: seq<Step>, c: nat)
    requires Run(steps).Some? && c in Run(steps).value.calls
    ensures var call := Run(steps).value.calls[c];
      && |call.sent| <= 2
      && (|call.sent| == 2 ==> call.sent[0].id != call.sent[1].id)
      && (forall i | 0 <= i < |call.sent| :: call.sent[i].from == call.from && (call.write ==> call.sent[i].writable))
  {
    RunKeepsInv(steps);
  }

  // A cached token that is good enough is used again: nothing is minted. Otherwise a fresh one is, unless
  // Portal refuses, and replaces it.
  lemma AcquiresExactly(w: World, c: nat, minted: Minted)
    requires Enabled(w, Acquire(c, minted))
    ensures var call, w' := w.calls[c], Apply(w, Acquire(c, minted));
      var good := call.from in w.cache.tokens
                  && w.now < w.cache.tokens[call.from].expiresAt - REFRESH_BEFORE
                  && (call.write ==> w.cache.tokens[call.from].writable);
      && (good ==> w'.cache == w.cache && w'.calls[c].phase == Holding(w.cache.tokens[call.from]))
      && (!good && minted.Refuses? ==> w'.cache == w.cache && w'.calls[c].phase == Done)
      && (!good && minted.Grants? ==>
            var t := Token(w.cache.next, call.from, minted.writable, minted.expiresAt);
            && w'.cache.tokens == w.cache.tokens[call.from := t]
            && w'.calls[c].phase == if call.write && !minted.writable then Done else Holding(t))
  {
  }

  // Dropping a token removes that token and no other: one another call has put in its place stays.
  lemma DropsOnlyItsToken(w: World, c: nat)
    requires Enabled(w, DropToken(c))
    ensures var call, w' := w.calls[c], Apply(w, DropToken(c)); var t := call.phase.token;
      && t in w'.dropped && w'.calls[c].phase == Wanting
      && (forall f | f in w.cache.tokens && (f != call.from || w.cache.tokens[f] != t) ::
            f in w'.cache.tokens && w'.cache.tokens[f] == w.cache.tokens[f])
      && (forall f | f in w'.cache.tokens :: f in w.cache.tokens && (f != call.from || w.cache.tokens[f] != t))
  {
  }

  // ---------------------------------------------------------------- the store itself

  class Store {
    var tokens: map<string, Token>
    var next: nat

    ghost function View(): Cache
      reads this
    {
      Cache(tokens, next)
    }

    constructor ()
      ensures View() == Cache(map[], 0)
    {
      tokens, next := map[], 0;
    }

    method TokenFor(from: string, write: bool, now: int, minted: Minted) returns (handed: Handed)
      modifies this
      ensures (View(), handed) == HandOut(old(View()), from, write, now, minted)
    {
      var t: Token;
      if from !in tokens || now >= tokens[from].expiresAt - REFRESH_BEFORE || (write && !tokens[from].writable) {
        if minted.Refuses? { return MintFailed; }
        t := Token(next, from, minted.writable, minted.expiresAt);
        tokens, next := tokens[from := t], next + 1;
      } else {
        t := tokens[from];
      }
      if write && !t.writable { return Full; }
      handed := Gives(t);
    }

    method Drop(from: string, t: Token)
      modifies this`tokens
      ensures View() == Forget(old(View()), from, t)
    {
      if from in tokens && tokens[from] == t { tokens := tokens - {from}; }
    }

    // Everybody else's turn at the cache.
    method Others(uses: seq<Use>)
      requires Numbered(View())
      modifies this
      ensures Numbered(View()) && Follows(old(View()), View())
    {
      hide Follows, Numbered;
      Stays(View());
      for i := 0 to |uses|
        invariant Numbered(View()) && Follows(old(View()), View())
      {
        ghost var before := View();
        match uses[i] {
          case Take(from, write, now, minted) => var _ := TokenFor(from, write, now, minted);
          case LetGo(from, t) => Drop(from, t);
        }
        UseFollows(before, uses[i]);
        FollowsOn(old(View()), before, View());
      }
    }

    // withToken, with any use of the cache by others before each of its own: send, and once more with
    // a token minted since after a 401.
    method WithToken(from: string, write: bool, now: nat -> int, minted: nat -> Minted, unauthorized: bool,
                     others: nat -> seq<Use>)
      returns (sent: seq<Token>, handed: Handed)
      requires Numbered(View())
      modifies this
      ensures |sent| <= 2 && (|sent| == 2 ==> unauthorized && sent[1].id >= old(next) && sent[1].id != sent[0].id)
      ensures forall i | 0 <= i < |sent| :: write ==> sent[i].writable
      ensures handed.Gives? <==> |sent| == (if sent != [] && unauthorized then 2 else 1)
      ensures Numbered(View())
    {
      sent := [];
      while true
        invariant |sent| <= 1 && Numbered(View()) && old(next) <= next
        invariant sent != [] ==> unauthorized && sent[0].id < next
        invariant sent != [] && from in tokens ==> tokens[from].id >= old(next) && tokens[from].id != sent[0].id
        invariant forall i | 0 <= i < |sent| :: write ==> sent[i].writable
        decreases 2 - |sent|
      {
        Others(others(2 * |sent|));
        handed := TokenFor(from, write, now(|sent|), minted(|sent|));
        if !handed.Gives? { return; }
        sent := sent + [handed.token];
        if |sent| == 1 && unauthorized {
          Others(others(1));
          Drop(from, handed.token);
        } else {
          return;
        }
      }
    }
  }

  // One use of the cache by another call.
  datatype Use = Take(from: string, write: bool, now: int, minted: Minted) | LetGo(from: string, token: Token)

  ghost function Used(c: Cache, use: Use): Cache {
    match use
    case Take(from, write, now, minted) => HandOut(c, from, write, now, minted).0
    case LetGo(from, t) => Forget(c, from, t)
  }

  // Every cached token was minted before the next one.
  ghost predicate Numbered(c: Cache) { forall f | f in c.tokens :: c.tokens[f].id < c.next }

  lemma Stays(c: Cache)
    ensures Follows(c, c)
  {
  }

  lemma UseFollows(c: Cache, use: Use)
    requires Numbered(c)
    ensures Numbered(Used(c, use)) && Follows(c, Used(c, use))
  {
  }

  lemma FollowsOn(a: Cache, b: Cache, c: Cache)
    requires Follows(a, b) && Follows(b, c)
    ensures Follows(a, c)
  {
  }
}
