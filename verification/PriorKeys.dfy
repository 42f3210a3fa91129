// Which prior state key a bind carries for restore (internal/binder/binder.go).
module PriorKeys {
  import opened Common
  import opened Hpke

  ghost predicate IsRestoreKey(prior: map<int, Bytes>, r: Option<(int, Bytes)>) {
    if prior == map[] then r.None?
    else r.Some? && r.value.0 in prior && r.value.1 == prior[r.value.0] && forall v | v in prior :: v <= r.value.0
  }

  // The prior key of the highest version, carried so an older snapshot still decrypts.
  method RestoreKey(prior: map<int, Bytes>) returns (r: Option<(int, Bytes)>)
    ensures IsRestoreKey(prior, r)
  {
    var best: int, found := 0, false;
    var left: set<int> := prior.Keys;
    while left != {}
      invariant left <= prior.Keys
      invariant found <==> left != prior.Keys
      invariant found ==> best in prior
      invariant found ==> forall v | v in prior :: v in left || v <= best
      decreases |left|
    {
      Inhabited(left);
      var v :| v in left;
      if !found || v > best { best, found := v, true; }
      left := left - {v};
    }
    if found { r := Some((best, prior[best])); } else { assert prior.Keys == {}; r := None; }
  }

  lemma Inhabited(s: set<int>)
    requires s != {}
    ensures exists v :: v in s
  {
    if forall v :: v !in s { assert false; }
  }
}
