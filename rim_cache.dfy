/** The memoisation `build_rim_proposal` gets from its `lru_cache` decorator,
    for one fixed set of lookups over one fixed snapshot of their data: a
    cache maps a company code to the proposal built for it. A call that
    raises stores nothing, so only proposals are ever cached. */
module RimCache {
  import opened Rim

  datatype Memo = Memo(entries: map<string, RimProposal>)

  /** Every cached proposal is the one the builder produces for its code. */
  ghost predicate Agrees(m: Memo, src: Sources) {
    forall code :: code in m.entries ==> BuildRimProposal(code, src) == Ok(m.entries[code])
  }

  /** The cache as the process starts. */
  function EmptyMemo(): (m: Memo)
    ensures forall src :: Agrees(m, src)
    ensures m.entries.Keys == {}
  {
    Memo(map[])
  }

  /** A call through the cache: a hit returns the stored proposal, a miss
      builds one and stores it when the build succeeds. Either way the caller
      sees what the builder itself returns, and the cache keeps agreeing
      with the builder. */
  function CachedBuild(m: Memo, code: string, src: Sources): (out: (Result<RimProposal>, Memo))
    requires Agrees(m, src)
    ensures out.0 == BuildRimProposal(code, src)
    ensures Agrees(out.1, src)
    ensures out.1.entries.Keys == if out.0.Ok? then m.entries.Keys + {code} else m.entries.Keys
    ensures forall c :: c in m.entries ==> c in out.1.entries && out.1.entries[c] == m.entries[c]
  {
    if code in m.entries then
      (Ok(m.entries[code]), m)
    else
      var r := BuildRimProposal(code, src);
      if r.Ok? then (r, Memo(m.entries[code := r.value])) else (r, m)
  }

  /** A second call for the same code answers the same as the first and
      leaves the cache as the first call left it. */
  lemma SecondCallIsCacheHit(m: Memo, code: string, src: Sources)
    requires Agrees(m, src)
    ensures var (r1, m1) := CachedBuild(m, code, src);
            CachedBuild(m1, code, src) == (r1, m1)
  {
  }
}
