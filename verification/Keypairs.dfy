// The capture-keypair registry of a Computer (computer.go, capture_keypair.go).
module Keypairs {
  import opened Common

  datatype Keypair = Keypair(generation: int, pk: seq<nat>, sk: seq<nat>)

  datatype Registry = Registry(keys: map<int, Keypair>, current: int)

  const HALF_BYTES := 32

  const EMPTY := Registry(map[], 0)

  predicate Usable(kp: Keypair) { kp.generation > 0 && |kp.pk| == HALF_BYTES && |kp.sk| == HALF_BYTES }

  // No different material is registered for the keypair's generation.
  predicate Agrees(keys: map<int, Keypair>, kp: Keypair) {
    kp.generation in keys ==> keys[kp.generation].pk == kp.pk && keys[kp.generation].sk == kp.sk
  }

  ghost predicate WellFormed(r: Registry) {
    && (forall g | g in r.keys :: r.keys[g].generation == g && Usable(r.keys[g]))
    && (r.current == 0 || r.current in r.keys)
  }

  // What each single call makes of the registry; None is the error return, nil arguments included.
  ghost function Set(r: Registry, kp: Option<Keypair>): Option<Registry> {
    if kp.None? || !Usable(kp.value) || kp.value.generation < r.current || !Agrees(r.keys, kp.value) then None
    else Some(Registry(r.keys[kp.value.generation := kp.value], kp.value.generation))
  }

  ghost function AddPrior(r: Registry, kp: Option<Keypair>): Option<Registry> {
    if kp.None? || !Usable(kp.value) then None
    else if (r.current != 0 && kp.value.generation >= r.current) || !Agrees(r.keys, kp.value) then None
    else Some(r.(keys := r.keys[kp.value.generation := kp.value]))
  }

  // One AddPrior call after another.
  ghost function AddAll(r: Registry, prior: seq<Option<Keypair>>): Option<Registry> {
    if prior == [] then Some(r)
    else
      var before := AddAll(r, prior[..|prior| - 1]);
      if before.None? then None else AddPrior(before.value, prior[|prior| - 1])
  }

  ghost function SetOptional(r: Registry, current: Option<Keypair>): Option<Registry> {
    if current.None? then Some(r) else Set(r, current)
  }

  // Set, if a current keypair is given, and then AddPrior for each prior.
  ghost function OneByOne(r: Registry, current: Option<Keypair>, prior: seq<Option<Keypair>>): Option<Registry> {
    var set_ := SetOptional(r, current);
    if set_.None? then None else AddAll(set_.value, prior)
  }

  ghost predicate Distinct(prior: seq<Option<Keypair>>) {
    forall i, j | 0 <= i < j < |prior| && prior[i].Some? && prior[j].Some? ::
      prior[i].value.generation != prior[j].value.generation
  }

  // The batch call is the same sequence of single calls, with two demands of its own.
  ghost function Configure(r: Registry, current: Option<Keypair>, prior: seq<Option<Keypair>>): Option<Registry> {
    var after := OneByOne(r, current, prior);
    if after.None? || !Distinct(prior) || (prior != [] && after.value.current == 0) then None else after
  }

  class Computer {
    var captureKeypairs: map<int, Keypair>
    var captureGen: int

    ghost function State(): Registry reads this { Registry(captureKeypairs, captureGen) }

    constructor ()
      ensures State() == EMPTY
    {
      captureKeypairs, captureGen := map[], 0;
    }

    method SetCaptureKeypair(kp: Option<Keypair>) returns (ok: bool)
      modifies this
      ensures ok == Set(old(State()), kp).Some?
      ensures State() == if ok then Set(old(State()), kp).value else old(State())
    {
      if kp.None? || !Usable(kp.value) { return false; }
      if kp.value.generation < captureGen { return false; }
      if !Agrees(captureKeypairs, kp.value) { return false; }
      captureKeypairs := captureKeypairs[kp.value.generation := kp.value];
      captureGen := kp.value.generation;
      return true;
    }

    method AddPriorCaptureKeypair(kp: Option<Keypair>) returns (ok: bool)
      modifies this
      ensures ok == AddPrior(old(State()), kp).Some?
      ensures State() == if ok then AddPrior(old(State()), kp).value else old(State())
    {
      if kp.None? || !Usable(kp.value) { return false; }
      if captureGen != 0 && kp.value.generation >= captureGen { return false; }
      if !Agrees(captureKeypairs, kp.value) { return false; }
      captureKeypairs := captureKeypairs[kp.value.generation := kp.value];
      return true;
    }

    method ConfigureCaptureKeypairs(current: Option<Keypair>, prior: seq<Option<Keypair>>) returns (ok: bool)
      modifies this
      ensures ok == Configure(old(State()), current, prior).Some?
      ensures State() == if ok then Configure(old(State()), current, prior).value else old(State())
    {
      hide AddAll, Distinct;
      if current.Some? && !Usable(current.value) { return false; }
      var ready := Prepare(prior);
      if !ready {
        if Distinct(prior) { Unready(SetOptional(State(), current), prior); }
        return false;
      }
      var next, keys := captureGen, captureKeypairs;
      if current.Some? {
        if current.value.generation < next { return false; }
        if !Agrees(keys, current.value) { return false; }
        keys := keys[current.value.generation := current.value];
        next := current.value.generation;
      }
      ghost var base := Registry(keys, next);
      if |prior| > 0 && next == 0 {
        AddAllKeepsCurrent(base, prior);
        return false;
      }
      AddNone(base, prior[..0]);
      var i := 0;
      while i < |prior|
        invariant 0 <= i <= |prior|
        invariant State() == old(State())
        invariant AddAll(base, prior[..i]) == Some(Registry(keys, next))
      {
        var kp := prior[i].value;
        AddOneMore(base, prior, i);
        if kp.generation >= next || !Agrees(keys, kp) {
          AddStuck(base, prior, i + 1);
          return false;
        }
        keys := keys[kp.generation := kp];
        i := i + 1;
      }
      assert prior[..i] == prior;
      captureKeypairs, captureGen := keys, next;
      return true;
    }
  }

  // The pass over the caller's priors that precedes any look at the registry.
  method Prepare(prior: seq<Option<Keypair>>) returns (ready: bool)
    ensures ready <==> Distinct(prior) && forall kp | kp in prior :: kp.Some? && Usable(kp.value)
  {
    var seen: set<int> := {};
    var i := 0;
    while i < |prior|
      invariant 0 <= i <= |prior|
      invariant forall j | 0 <= j < i :: prior[j].Some? && Usable(prior[j].value)
      invariant seen == set j | 0 <= j < i :: prior[j].value.generation
      invariant Distinct(prior[..i])
    {
      if prior[i].None? || !Usable(prior[i].value) { return false; }
      if prior[i].value.generation in seen { return false; }
      seen := seen + {prior[i].value.generation};
      i := i + 1;
    }
    assert prior[..i] == prior;
    return true;
  }

  lemma AddNone(r: Registry, none: seq<Option<Keypair>>)
    requires none == []
    ensures AddAll(r, none) == Some(r)
  {
  }

  lemma AddOneMore(r: Registry, prior: seq<Option<Keypair>>, i: nat)
    requires i < |prior|
    ensures AddAll(r, prior[..i + 1]) ==
            var before := AddAll(r, prior[..i]);
            if before.None? then None else AddPrior(before.value, prior[i])
  {
    assert prior[..i + 1][..i] == prior[..i];
  }

  lemma {:induction false} AddStuck(r: Registry, prior: seq<Option<Keypair>>, i: nat)
    requires i <= |prior| && AddAll(r, prior[..i]).None?
    ensures AddAll(r, prior).None?
    decreases |prior| - i
  {
    if i == |prior| { assert prior[..i] == prior; }
    else { AddOneMore(r, prior, i); AddStuck(r, prior, i + 1); }
  }

  lemma Unready(start: Option<Registry>, prior: seq<Option<Keypair>>)
    requires exists kp :: kp in prior && (kp.None? || !Usable(kp.value))
    ensures start.Some? ==> AddAll(start.value, prior).None?
  {
    hide AddAll;
    if start.Some? {
      var i :| 0 <= i < |prior| && (prior[i].None? || !Usable(prior[i].value));
      AddOneMore(start.value, prior, i);
      AddStuck(start.value, prior, i + 1);
    }
  }

  lemma {:induction false} AddAllKeepsCurrent(r: Registry, prior: seq<Option<Keypair>>)
    ensures AddAll(r, prior).Some? ==> AddAll(r, prior).value.current == r.current
  {
    if prior != [] { AddAllKeepsCurrent(r, prior[..|prior| - 1]); }
  }

  // What adding priors means, said of the priors as a collection: who may be added at all, ...
  ghost predicate Addable(r: Registry, prior: seq<Option<Keypair>>) {
    && (forall kp | kp in prior :: kp.Some? && AddPrior(r, kp).Some?)
    && (forall a, b | a in prior && b in prior && a.Some? && b.Some? && a.value.generation == b.value.generation ::
          a == b)
  }

  // ... and what is registered afterwards.
  ghost predicate Holds(r: Registry, prior: seq<Option<Keypair>>, after: Registry) {
    && after.current == r.current
    && (forall g | g in r.keys :: g in after.keys && after.keys[g] == r.keys[g])
    && (forall kp | kp in prior ::
          kp.Some? && kp.value.generation in after.keys && after.keys[kp.value.generation] == kp.value)
    && (forall g | g in after.keys :: g in r.keys || Some(after.keys[g]) in prior)
  }

  lemma {:induction false} AddAllMeans(r: Registry, prior: seq<Option<Keypair>>)
    requires WellFormed(r)
    ensures AddAll(r, prior).Some? <==> Addable(r, prior)
    ensures AddAll(r, prior).Some? ==> WellFormed(AddAll(r, prior).value) && Holds(r, prior, AddAll(r, prior).value)
  {
    if prior == [] { return; }
    var front, last := prior[..|prior| - 1], prior[|prior| - 1];
    assert prior == front + [last];
    AddAllMeans(r, front);
    if AddAll(r, front).Some? { AddLast(r, front, last, AddAll(r, front).value); }
  }

  lemma AddLast(r: Registry, front: seq<Option<Keypair>>, last: Option<Keypair>, mid: Registry)
    requires WellFormed(r) && WellFormed(mid) && Addable(r, front) && Holds(r, front, mid)
    ensures AddPrior(mid, last).Some? <==> Addable(r, front + [last])
    ensures AddPrior(mid, last).Some? ==>
              WellFormed(AddPrior(mid, last).value) && Holds(r, front + [last], AddPrior(mid, last).value)
  {
    hide AddPrior, Addable, Holds, WellFormed;
    if AddPrior(mid, last).Some? {
      LastIsAddable(r, front, last, mid);
      LastIsHeld(r, front, last, mid);
    }
    if Addable(r, front + [last]) { LastIsAdded(r, front, last, mid); }
  }

  lemma LastIsAddable(r: Registry, front: seq<Option<Keypair>>, last: Option<Keypair>, mid: Registry)
    requires WellFormed(r) && Addable(r, front) && Holds(r, front, mid) && AddPrior(mid, last).Some?
    ensures Addable(r, front + [last])
  {
    var all := front + [last];
    assert forall kp | kp in all :: kp in front || kp == last;
    assert AddPrior(r, last).Some?;
    forall a | a in front && a.value.generation == last.value.generation ensures a == last {
      assert mid.keys[a.value.generation] == a.value;
    }
  }

  lemma LastIsHeld(r: Registry, front: seq<Option<Keypair>>, last: Option<Keypair>, mid: Registry)
    requires WellFormed(mid) && Holds(r, front, mid) && AddPrior(mid, last).Some?
    ensures WellFormed(AddPrior(mid, last).value) && Holds(r, front + [last], AddPrior(mid, last).value)
  {
    var all := front + [last];
    assert forall kp | kp in all :: kp in front || kp == last;
    assert last in all && forall kp | kp in front :: kp in all;
    assert last.value.generation in mid.keys ==> mid.keys[last.value.generation] == last.value;
  }

  lemma LastIsAdded(r: Registry, front: seq<Option<Keypair>>, last: Option<Keypair>, mid: Registry)
    requires WellFormed(mid) && Holds(r, front, mid) && Addable(r, front + [last])
    ensures AddPrior(mid, last).Some?
  {
    var all := front + [last];
    assert last in all && forall kp | kp in front :: kp in all;
    var g := last.value.generation;
    if g in mid.keys && g !in r.keys { assert Some(mid.keys[g]) in all; }
  }

  // The order of the priors, and repeats among them, make no difference to the single calls.
  lemma AddAllOrderFree(r: Registry, p: seq<Option<Keypair>>, q: seq<Option<Keypair>>)
    requires WellFormed(r) && (forall kp :: kp in p <==> kp in q)
    ensures AddAll(r, p) == AddAll(r, q)
  {
    hide AddAll;
    AddAllMeans(r, p);
    AddAllMeans(r, q);
    assert Addable(r, p) <==> Addable(r, q);
    if Addable(r, p) { SameKeys(r, p, q, AddAll(r, p).value, AddAll(r, q).value); }
  }

  lemma SameKeys(r: Registry, p: seq<Option<Keypair>>, q: seq<Option<Keypair>>, a: Registry, b: Registry)
    requires (forall kp :: kp in p <==> kp in q) && Holds(r, p, a) && Holds(r, q, b) && WellFormed(a) && WellFormed(b)
    ensures a == b
  {
    SomeKeys(r, p, q, a, b);
    SomeKeys(r, q, p, b, a);
    assert a.keys == b.keys by {
      assert a.keys.Keys == b.keys.Keys;
      forall g | g in a.keys ensures a.keys[g] == b.keys[g] {}
    }
  }

  lemma SomeKeys(r: Registry, p: seq<Option<Keypair>>, q: seq<Option<Keypair>>, a: Registry, b: Registry)
    requires (forall kp :: kp in p <==> kp in q) && Holds(r, p, a) && Holds(r, q, b) && WellFormed(a)
    ensures a.keys.Keys <= b.keys.Keys
    ensures forall g: int {:trigger b.keys[g]} :: g in a.keys ==> b.keys[g] == a.keys[g]
  {
    forall g | g in a.keys ensures g in b.keys && b.keys[g] == a.keys[g] {
      if g !in r.keys { assert Some(a.keys[g]) in q; }
    }
  }

  lemma SetKeepsForm(r: Registry, current: Option<Keypair>)
    requires WellFormed(r)
    ensures SetOptional(r, current).Some? ==> WellFormed(SetOptional(r, current).value)
  {
  }

  // A successful batch ends where Set followed by AddPrior in any order ends, and the batch
  // accepts a list of priors exactly when it accepts every reordering of it.
  lemma ConfigureOrderFree(r: Registry, current: Option<Keypair>, p: seq<Option<Keypair>>, q: seq<Option<Keypair>>)
    requires WellFormed(r) && multiset(p) == multiset(q)
    ensures Configure(r, current, p) == Configure(r, current, q)
    ensures Configure(r, current, p).Some? ==> OneByOne(r, current, q) == Configure(r, current, p)
  {
    hide AddAll, Distinct;
    SetKeepsForm(r, current);
    assert forall kp :: kp in p <==> kp in multiset(p);
    assert forall kp :: kp in q <==> kp in multiset(q);
    if SetOptional(r, current).Some? { AddAllOrderFree(SetOptional(r, current).value, p, q); }
    if Distinct(p) { DistinctBag(p, q); }
    if Distinct(q) { DistinctBag(q, p); }
    assert |p| == |multiset(p)| == |q|;
  }

  lemma DistinctBag(p: seq<Option<Keypair>>, q: seq<Option<Keypair>>)
    requires Distinct(p) && multiset(p) == multiset(q)
    ensures Distinct(q)
  {
    forall i, j | 0 <= i < j < |q| && q[i].Some? && q[j].Some?
      ensures q[i].value.generation != q[j].value.generation
    {
      if q[i].value.generation == q[j].value.generation {
        assert q[i] in multiset(q) && q[j] in multiset(q);
        var a :| 0 <= a < |p| && p[a] == q[i];
        var b :| 0 <= b < |p| && p[b] == q[j];
        assert a == b;
        Twice(q, i, j);
        Once(p, a);
        assert false;
      }
    }
  }

  lemma Twice(s: seq<Option<Keypair>>, i: nat, j: nat)
    requires i < j < |s| && s[i] == s[j]
    ensures multiset(s)[s[i]] >= 2
  {
    assert s == s[..j] + [s[j]] + s[j + 1..];
    assert s[i] == s[..j][i] && s[i] in multiset(s[..j]);
  }

  lemma Once(s: seq<Option<Keypair>>, i: nat)
    requires i < |s| && Distinct(s) && s[i].Some?
    ensures multiset(s)[s[i]] == 1
  {
    assert s == s[..i] + [s[i]] + s[i + 1..];
    assert s[i] !in s[..i];
    var rest := s[i + 1..];
    assert forall k | 0 <= k < |rest| :: rest[k] != s[i];
    assert s[i] !in rest;
  }

  // Whole runs. A failing call leaves the registry as it was.
  datatype Call =
    | SetCall(kp: Option<Keypair>)
    | AddCall(kp: Option<Keypair>)
    | ConfigureCall(current: Option<Keypair>, prior: seq<Option<Keypair>>)

  ghost function Outcome(r: Registry, call: Call): Option<Registry> {
    match call
    case SetCall(kp) => Set(r, kp)
    case AddCall(kp) => AddPrior(r, kp)
    case ConfigureCall(current, prior) => Configure(r, current, prior)
  }

  ghost function Apply(r: Registry, call: Call): Registry {
    if Outcome(r, call).Some? then Outcome(r, call).value else r
  }

  ghost function RunAll(r: Registry, calls: seq<Call>): Registry {
    if calls == [] then r else Apply(RunAll(r, calls[..|calls| - 1]), calls[|calls| - 1])
  }

  // Later registries only add generations and only move the current one forward.
  ghost predicate Extends(r: Registry, after: Registry) {
    && r.current <= after.current
    && (forall g | g in r.keys :: g in after.keys && after.keys[g] == r.keys[g])
  }

  lemma SetExtends(r: Registry, kp: Option<Keypair>)
    requires WellFormed(r) && Set(r, kp).Some?
    ensures WellFormed(Set(r, kp).value) && Extends(r, Set(r, kp).value) && Set(r, kp).value.current > 0
    ensures forall g | g in Set(r, kp).value.keys :: g in r.keys || g == Set(r, kp).value.current
  {
  }

  lemma ApplyExtends(r: Registry, call: Call)
    requires WellFormed(r)
    ensures WellFormed(Apply(r, call)) && Extends(r, Apply(r, call))
    ensures Apply(r, call).current != 0 ==>
              forall g | g in Apply(r, call).keys :: g in r.keys || g <= Apply(r, call).current
  {
    hide AddAll, Distinct;
    match call
    case SetCall(kp) => if Set(r, kp).Some? { SetExtends(r, kp); }
    case AddCall(kp) =>
    case ConfigureCall(current, prior) =>
      if Configure(r, current, prior).Some? {
        var mid := SetOptional(r, current).value;
        if current.Some? { SetExtends(r, current); }
        AddAllMeans(mid, prior);
        AddedAreOlder(r, mid, prior);
      }
  }

  lemma AddedAreOlder(r: Registry, mid: Registry, prior: seq<Option<Keypair>>)
    requires WellFormed(mid) && Addable(mid, prior) && AddAll(mid, prior).Some?
    requires WellFormed(AddAll(mid, prior).value) && Holds(mid, prior, AddAll(mid, prior).value)
    requires forall g | g in mid.keys :: g in r.keys || g == mid.current
    ensures mid.current != 0 ==>
              forall g | g in AddAll(mid, prior).value.keys :: g in r.keys || g <= mid.current
  {
    hide AddAll;
  }

  lemma {:induction false} RunExtends(r: Registry, calls: seq<Call>)
    requires WellFormed(r)
    ensures WellFormed(RunAll(r, calls)) && Extends(r, RunAll(r, calls))
  {
    hide Apply;
    if calls != [] {
      RunExtends(r, calls[..|calls| - 1]);
      ApplyExtends(RunAll(r, calls[..|calls| - 1]), calls[|calls| - 1]);
    }
  }

  lemma {:induction false} RunSplits(r: Registry, first: seq<Call>, rest: seq<Call>)
    ensures RunAll(r, first + rest) == RunAll(RunAll(r, first), rest)
    decreases |rest|
  {
    hide Apply;
    if rest == [] {
      assert first + rest == first;
    } else {
      var front := rest[..|rest| - 1];
      assert (first + rest)[..|first + rest| - 1] == first + front;
      RunSplits(r, first, front);
    }
  }

  // Between any two points of a run: the current generation has not decreased and no registered
  // generation has changed its material.
  lemma RunsOnlyMoveForward(calls: seq<Call>, i: nat, j: nat)
    requires i <= j <= |calls|
    ensures WellFormed(RunAll(EMPTY, calls[..i]))
    ensures Extends(RunAll(EMPTY, calls[..i]), RunAll(EMPTY, calls[..j]))
  {
    hide RunAll;
    assert calls[..j] == calls[..i] + calls[i..j];
    RunSplits(EMPTY, calls[..i], calls[i..j]);
    RunExtends(EMPTY, calls[..i]);
    RunExtends(RunAll(EMPTY, calls[..i]), calls[i..j]);
  }

  ghost predicate NoneAbove(generations: set<int>, top: int) { forall g | g in generations :: g <= top }

  // Whether the current generation is the newest one registered.
  ghost predicate Newest(r: Registry) { NoneAbove(r.keys.Keys, r.current) }

  // The generations a run registers as priors before any current keypair is set.
  ghost function Early(calls: seq<Call>): set<int> {
    if calls == [] then {}
    else if RunAll(EMPTY, calls).current == 0 then RunAll(EMPTY, calls).keys.Keys
    else Early(calls[..|calls| - 1])
  }

  lemma {:induction false} OthersAreOlder(calls: seq<Call>)
    ensures forall g | g in Early(calls) :: g in RunAll(EMPTY, calls).keys
    ensures forall g | g in RunAll(EMPTY, calls).keys :: g in Early(calls) || g <= RunAll(EMPTY, calls).current
  {
    hide Apply;
    if calls != [] {
      var front := calls[..|calls| - 1];
      OthersAreOlder(front);
      RunExtends(EMPTY, front);
      ApplyExtends(RunAll(EMPTY, front), calls[|calls| - 1]);
      if RunAll(EMPTY, front).current == 0 { EarlyWhileUnset(front); }
    }
  }

  lemma EarlyWhileUnset(calls: seq<Call>)
    requires RunAll(EMPTY, calls).current == 0
    ensures Early(calls) == RunAll(EMPTY, calls).keys.Keys
  {
    hide Apply;
  }

  // Exactly when the current generation is the newest: no prior registered before the first
  // current keypair lies above it.
  lemma NewestExactly(calls: seq<Call>)
    ensures Newest(RunAll(EMPTY, calls)) <==> NoneAbove(Early(calls), RunAll(EMPTY, calls).current)
  {
    hide RunAll, Early;
    OthersAreOlder(calls);
  }

  // And it can fail: a prior of generation 5 first, then a current keypair of generation 3.
  lemma CurrentNeedNotBeNewest(pk: seq<nat>, sk: seq<nat>)
    requires |pk| == |sk| == HALF_BYTES
    ensures var r := RunAll(EMPTY, [AddCall(Some(Keypair(5, pk, sk))), SetCall(Some(Keypair(3, pk, sk)))]);
            r.current == 3 && r.keys.Keys == {3, 5} && !Newest(r)
  {
    var add, set_ := AddCall(Some(Keypair(5, pk, sk))), SetCall(Some(Keypair(3, pk, sk)));
    var mid := Registry(map[5 := Keypair(5, pk, sk)], 0);
    assert [add, set_][..1] == [add] && [add][..0] == [];
    assert RunAll(EMPTY, []) == EMPTY;
    assert Apply(EMPTY, add) == mid;
    assert RunAll(EMPTY, [add]) == mid;
    var end := Apply(mid, set_);
    assert RunAll(EMPTY, [add, set_]) == end;
    assert 5 in end.keys;
  }

  // ---------------------------------------------------------------- which calls are accepted

  // A registered generation can be given again only with the keypair it has.
  ghost predicate NewOrSame(r: Registry, kp: Keypair) {
    kp.generation in r.keys ==> r.keys[kp.generation] == kp
  }

  // After any run: a keypair can be made the current one exactly if it is well formed, not older than the
  // current one, and new or the same; it is then the current one and nothing else changes.
  lemma SetExactly(calls: seq<Call>, kp: Keypair)
    ensures var r := RunAll(EMPTY, calls); var after := RunAll(EMPTY, calls + [SetCall(Some(kp))]);
      && (Outcome(r, SetCall(Some(kp))).Some? <==> Usable(kp) && kp.generation >= r.current && NewOrSame(r, kp))
      && (Outcome(r, SetCall(Some(kp))).Some? ==>
            after.current == kp.generation && after.keys == r.keys[kp.generation := kp])
      && (Outcome(r, SetCall(Some(kp))).None? ==> after == r)
  {
    hide RunAll;
    RunExtends(EMPTY, calls);
    OneCall(calls, SetCall(Some(kp)));
  }

  // A prior is accepted exactly if it is well formed, older than the current keypair if there is one, and
  // new or the same; the current one stays.
  lemma PriorExactly(calls: seq<Call>, kp: Keypair)
    ensures var r := RunAll(EMPTY, calls); var after := RunAll(EMPTY, calls + [AddCall(Some(kp))]);
      && (Outcome(r, AddCall(Some(kp))).Some? <==>
            Usable(kp) && (r.current == 0 || kp.generation < r.current) && NewOrSame(r, kp))
      && (Outcome(r, AddCall(Some(kp))).Some? ==>
            after.current == r.current && after.keys == r.keys[kp.generation := kp])
      && (Outcome(r, AddCall(Some(kp))).None? ==> after == r)
  {
    hide RunAll;
    RunExtends(EMPTY, calls);
    OneCall(calls, AddCall(Some(kp)));
  }

  lemma OneCall(calls: seq<Call>, call: Call)
    ensures RunAll(EMPTY, calls + [call]) == Apply(RunAll(EMPTY, calls), call)
  {
    hide Apply;
    assert (calls + [call])[..|calls|] == calls;
  }

  // Every call that was accepted is accepted again, and then changes nothing.
  lemma RepeatChangesNothing(r: Registry, call: Call)
    requires WellFormed(r) && Outcome(r, call).Some?
    ensures Outcome(Outcome(r, call).value, call) == Outcome(r, call)
  {
    hide AddAll, Distinct;
    if call.ConfigureCall? {
      var mid := SetOptional(r, call.current).value;
      SetKeepsForm(r, call.current);
      var after := AddAll(mid, call.prior).value;
      AddAllMeans(mid, call.prior);
      SetAgain(r, call.current, after);
      AddAgain(mid, call.prior, after);
    } else {
      var after := Outcome(r, call).value;
      assert after.keys[call.kp.value.generation := call.kp.value] == after.keys;
    }
  }

  lemma SetAgain(r: Registry, current: Option<Keypair>, after: Registry)
    requires SetOptional(r, current).Some?
    requires Extends(SetOptional(r, current).value, after) && after.current == SetOptional(r, current).value.current
    ensures SetOptional(after, current) == Some(after)
  {
    if current.Some? {
      assert after.keys[current.value.generation] == current.value;
      assert after.keys[current.value.generation := current.value] == after.keys;
    }
  }

  lemma AddAgain(mid: Registry, prior: seq<Option<Keypair>>, after: Registry)
    requires WellFormed(after) && Addable(mid, prior) && Holds(mid, prior, after)
    ensures AddAll(after, prior) == Some(after)
  {
    hide AddAll;
    AddAllMeans(after, prior);
    assert Addable(after, prior) by {
      forall kp | kp in prior ensures kp.Some? && AddPrior(after, kp).Some? {
        assert AddPrior(mid, kp).Some?;
      }
    }
    var again := AddAll(after, prior).value;
    forall g | g in again.keys ensures g in after.keys && after.keys[g] == again.keys[g] {}
    forall g | g in after.keys ensures g in again.keys {}
    assert again.keys == after.keys;
  }
}
