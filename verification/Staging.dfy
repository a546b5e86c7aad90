/** The coordinator's side of delta transfer: which route a machine takes and what each route delivers. */
module Staging {
  import opened Records
  import opened Commits
  import opened BundleCache
  import opened CacheSafety
  import opened CacheEffects
  import opened Reconstruction

  /** The payload for a worker that has `have`; None when the source does not know one of the commits. */
  method WorkerPayload(src: Checkout, have: Oid, ns: string, packed: nat) returns (out: Option<Payload>)
    requires src.Valid() && ns + "head" !in src.refs && ns + "base" !in src.refs && packed > 0
    modifies src`refs
    ensures src.refs == old(src.refs)
    ensures out.Some? <==> have in src.objects
    ensures out.Some? ==> DeltaFor(src.history, have, src.head, out.value)
  {
    var bundle := src.CreateBundle(Some(have), src.head, ns, packed);
    match bundle
    case NoSuchCommit => return None;
    case RangeEmpty => return Some(Payload(src.head, None));
    case Made(b) => return Some(Payload(src.head, Some(b)));
  }

  /** The payload carries exactly the range, or nothing when the range is empty. */
  ghost predicate DeltaFor(g: History, have: Oid, head: Oid, payload: Payload) {
    && payload.head == head
    && (payload.bundle.Some? ==> IsRange(g, Some(have), head, payload.bundle.value))
    && (payload.bundle.None? ==> have == head || head in Reach(g, have))
  }

  /** A payload with the whole history, and its size. */
  method NoSeedPayload(src: Checkout, ns: string, packed: nat) returns (payload: Payload, size: nat)
    requires src.Valid() && ns + "head" !in src.refs && ns + "base" !in src.refs && packed > 0
    modifies src`refs
    ensures src.refs == old(src.refs) && payload.head == src.head && size == packed
    ensures payload.bundle.Some? && IsRange(src.history, None, src.head, payload.bundle.value)
    ensures payload.bundle.value.bytes == packed
  {
    var bundle := src.CreateBundle(None, src.head, ns, packed);
    return Payload(src.head, Some(bundle.bundle)), packed;
  }

  /** Importing the delta onto a whole repository that holds `have` yields the head and its history. */
  lemma DeltaArrives(g: History, repo: set<Oid>, have: Oid, head: Oid, payload: Payload)
    requires WellFormed(g) && Closed(g, repo) && have in repo && head in g && DeltaFor(g, have, head, payload)
    ensures Reach(g, head) <= Import(repo, payload.bundle) && head in Import(repo, payload.bundle)
    ensures ValidPayload(g, payload)
  {
    ReachSelf(g, head);
    if payload.bundle.Some? {
      DeltaSuffices(g, repo, have, head, payload.bundle.value);
    } else {
      EmptyRangeSuffices(g, repo, have, head);
    }
  }

  /** A cache hit plus the delta is the whole history, whatever the work directory held before. */
  lemma HitArrives(g: History, repo: set<Oid>, m: Entries, base: Oid, head: Oid, spec: CacheSpec, payload: Payload)
    requires WellFormed(g) && Closed(g, repo) && head in g && Sound(g, m) && base in m && m[base].complete
    requires spec.useCached && spec.entry == Some(base) && DeltaFor(g, base, head, payload)
    ensures ValidPayload(g, payload)
    ensures Reach(g, head) <= Imported(repo, m, spec, payload) && head in Imported(repo, m, spec, payload)
  {
    var cached := m[base].bundle.value;
    assert Covers(g, base, cached);
    UnbundleClosed(g, repo, cached);
    ReachSelf(g, base);
    DeltaArrives(g, Unbundled(repo, cached), base, head, payload);
  }

  /** The full bundle is the whole history on its own. */
  lemma FullArrives(g: History, repo: set<Oid>, m: Entries, head: Oid, spec: CacheSpec, payload: Payload)
    requires WellFormed(g) && head in g && !spec.useCached
    requires payload.bundle.Some? && IsRange(g, None, head, payload.bundle.value)
    ensures head in Imported(repo, m, spec, payload) && ValidPayload(g, payload)
  {
    ReachSelf(g, head);
  }

  /**
   * The entry is claimed after a hit. However other processes use the cache before the worker
   * imports it, as long as the claim is neither released nor outdated, base and delta together
   * give the worker everything reachable from the head.
   */
  lemma ClaimedHitArrives(g: History, ops: seq<CacheOp>, states: seq<Entries>, k: nat, base: Oid, claim: string,
                          since: Time, repo: set<Oid>, head: Oid, payload: Payload)
    requires ClaimHeld(ops, states, base, claim, since, k) && Sound(g, states[0])
    requires forall i :: 0 <= i < k ==> Careful(g, ops[i], states[i])
    requires WellFormed(g) && Closed(g, repo) && head in g && DeltaFor(g, base, head, payload)
    ensures Reach(g, head) <= Imported(repo, states[k], CacheSpec(Some(base), true, None, None), payload)
  {
    ClaimProtects(ops, states, base, claim, since, k);
    RunSound(g, ops, states, k);
    HitArrives(g, repo, states[k], base, head, CacheSpec(Some(base), true, None, None), payload);
  }

  /**
   * Whatever the cached bundle is, torn or not, and whatever the work directory held before: cached bundle
   * and delta yield the head if and only if the cached bundle leaves the base in the work directory.
   */
  lemma HitExactly(g: History, repo: set<Oid>, m: Entries, base: Oid, head: Oid, spec: CacheSpec, payload: Payload)
    requires WellFormed(g) && Closed(g, repo) && Importable(g, m) && head in g && base in g[head] && base in m
    requires spec.useCached && spec.entry == Some(base) && DeltaFor(g, base, head, payload)
    ensures ValidPayload(g, payload)
    ensures head in Imported(repo, m, spec, payload) <==> base in Import(repo, m[base].bundle)
  {
    var first := Import(repo, m[base].bundle);
    if m[base].bundle.Some? { UnbundleClosed(g, repo, m[base].bundle.value); }
    assert Closed(g, first);
    ReachSelf(g, base);
    ReachSelf(g, head);
    if base in first {
      DeltaArrives(g, first, base, head, payload);
    } else {
      assert head !in first;
      if payload.bundle.Some? { BaseNeeded(g, base, head, payload.bundle.value); }
    }
  }

  /** A delta that carries a commit needs that commit's parent, when it is the base. */
  lemma BaseNeeded(g: History, base: Oid, head: Oid, b: Bundle)
    requires WellFormed(g) && head in g && base in g[head] && IsRange(g, Some(base), head, b)
    ensures base in b.prerequisites || b.commits == {}
  {
    ReachSelf(g, head);
    ReachSelf(g, base);
    if head !in b.commits {
      ReachClosed(g, base);
      ReachLeast(g, head, Reach(g, base));
    }
  }

  /** Claimed, left alone by another process's eviction, used, released. */
  ghost predicate HitUsed(base: Oid, claim: string, rival: Policy, now: Time, m: Entries, m': Entries) {
    var claimed := Acquired(m, base, claim, now);
    exists left ::
      IsEviction(rival, MtimeIn(claimed), claimed, left) && m' == Unclaimed(Touched(left, base, now), base, claim)
  }

  /** What a no-seed transfer leaves in the cache, by route. */
  ghost predicate CacheAfter(g: History, head: Oid, base: Option<Oid>, p: Policy, claim: string, rival: Policy,
                             packed: nat, applies: bool, now: Time, m: Entries, m': Entries)
  {
    if base.None? then m' == m
    else if base.value in Complete(m) then HitUsed(base.value, claim, rival, now, m, m')
    else if packed > p.maxBytes || packed < p.admissionBytes || !applies then m' == m
    else exists full ::
      && IsRange(g, None, head, full) && full.bytes == packed
      && var added := Admitted(m, base.value, full, packed, now, now); IsEviction(p, MtimeIn(added), added, m')
  }

  /** The cache key of the checkout's head. */
  ghost function KeyOf(src: Checkout): Option<Oid>
    requires src.Valid()
  {
    if src.history[src.head] == [] then None else Some(src.history[src.head][0])
  }

  /** The head's key is no hit, or the hit's bundle leaves the key in the work directory. */
  ghost predicate HitServes(src: Checkout, repo: set<Oid>, m: Entries)
    requires src.Valid()
  {
    var key := KeyOf(src);
    key.Some? && key.value in Complete(m) ==> key.value in Import(repo, m[key.value].bundle)
  }

  /** The head's key is a hit whose bundle was left half written. */
  ghost predicate TornHit(src: Checkout, m: Entries)
    requires src.Valid()
  {
    KeyOf(src).Some? && KeyOf(src).value in Complete(m) && m[KeyOf(src).value].bundle.None?
  }

  /** A sound cache always serves; a torn hit never serves a fresh work directory. */
  lemma WhenHitsServe(src: Checkout, repo: set<Oid>, m: Entries)
    requires src.Valid()
    ensures Sound(src.history, m) ==> HitServes(src, repo, m) && !TornHit(src, m)
    ensures TornHit(src, m) ==> (HitServes(src, repo, m) <==> KeyOf(src).value in repo)
  {
    var key := KeyOf(src);
    if key.Some? && key.value in Complete(m) && Sound(src.history, m) {
      assert Covers(src.history, key.value, m[key.value].bundle.value);
      ReachSelf(src.history, key.value);
    }
  }

  /** A miss whose bundle the cache could never hold. */
  ghost predicate Oversized(src: Checkout, configured: Policy, packed: nat, m: Entries)
    requires src.Valid()
  {
    KeyOf(src).Some? && KeyOf(src).value !in Complete(m) && packed > EffectiveBundleCache(configured).maxBytes
  }

  /**
   * Without a seed: nothing cached for a root commit, the delta on a hit, else the whole history,
   * admitted when its size is at least the threshold and fits. `applies` says whether the local changes apply;
   * `rival` are the limits of another process that evicts while this one holds its claim.
   */
  method StageNoSeedReconstruct(w: Worker, src: Checkout, configured: Policy, claim: string, rival: Policy, ns: string,
                                packed: nat, applies: bool, now: Time) returns (ok: bool, warned: bool)
    requires src.Valid() && w.Valid() && w.history == src.history
    requires ns + "head" !in src.refs && ns + "base" !in src.refs && packed > 0
    modifies w`repo, w.cache, src`refs
    ensures w.Valid() && src.refs == old(src.refs)
    ensures old(Sound(w.history, w.cache.entries)) ==> Sound(w.history, w.cache.entries)
    ensures ok ==> Reach(src.history, src.head) <= w.repo
    ensures ok <==> applies && HitServes(src, old(w.repo), old(w.cache.entries))
    ensures old(Sound(w.history, w.cache.entries)) ==> (ok <==> applies)
    ensures old(w.repo) == {} && TornHit(src, old(w.cache.entries)) ==> !ok
    ensures warned <==> Oversized(src, configured, packed, old(w.cache.entries))
    ensures old(Measured(w.cache.entries)) ==> Measured(w.cache.entries)
    ensures CacheAfter(src.history, src.head, KeyOf(src), EffectiveBundleCache(configured), claim, rival, packed,
                       applies, now, old(w.cache.entries), w.cache.entries)
  {
    WhenHitsServe(src, w.repo, w.cache.entries);
    hide Sound, Importable, Closed, ValidBundle, ValidPayload, Covers, WellFormed, IsRange, IsEviction, Measured;
    ghost var m := w.cache.entries;
    ok, warned := StageByRoute(w, src, configured, claim, rival, ns, packed, applies, now);
    CacheAfterMeans(src.history, src.head, KeyOf(src), EffectiveBundleCache(configured), claim, rival, packed, applies,
                    now, m, w.cache.entries);
  }

  method StageByRoute(w: Worker, src: Checkout, configured: Policy, claim: string, rival: Policy, ns: string,
                      packed: nat, applies: bool, now: Time) returns (ok: bool, warned: bool)
    requires src.Valid() && w.Valid() && w.history == src.history
    requires ns + "head" !in src.refs && ns + "base" !in src.refs && packed > 0
    modifies w`repo, w.cache, src`refs
    ensures w.Valid() && src.refs == old(src.refs)
    ensures old(Sound(w.history, w.cache.entries)) ==> Sound(w.history, w.cache.entries)
    ensures ok ==> Reach(src.history, src.head) <= w.repo
    ensures ok <==> applies && HitServes(src, old(w.repo), old(w.cache.entries))
    ensures warned <==> Oversized(src, configured, packed, old(w.cache.entries))
    ensures CacheAfter(src.history, src.head, KeyOf(src), EffectiveBundleCache(configured), claim, rival, packed,
                       applies, now, old(w.cache.entries), w.cache.entries)
  {
    hide Sound, Importable, Closed, ValidBundle, ValidPayload, Covers, WellFormed, IsRange, IsEviction;
    warned := false;
    var p := EffectiveBundleCache(configured);
    var base := src.Base();
    if base.None? {
      ok := StageFull(w, src, ONE_SHOT, ns, packed, applies, now);
      return;
    }
    if base.value in w.cache.entries && w.cache.entries[base.value].complete {
      ok := StageHit(w, src, base.value, claim, rival, ns, packed, applies, now);
      return;
    }
    if packed > p.maxBytes {
      ok := StageFull(w, src, ONE_SHOT, ns, packed, applies, now);
      return ok, true;
    }
    var cache := ONE_SHOT;
    if packed >= p.admissionBytes {
      cache := CacheSpec(base, false, Some((packed, now)), Some(p));
    }
    ok := StageFull(w, src, cache, ns, packed, applies, now);
  }

  /** What the routes do to the cache, said by its entries. */
  lemma CacheAfterMeans(g: History, head: Oid, base: Option<Oid>, p: Policy, claim: string, rival: Policy, packed: nat,
                        applies: bool, now: Time, m: Entries, m': Entries)
    requires CacheAfter(g, head, base, p, claim, rival, packed, applies, now, m, m')
    ensures Measured(m) ==> Measured(m')
    // A root commit, a failed transfer and a bundle under the threshold or over the limit leave a miss a miss.
    ensures base.None? ==> m' == m
    ensures base.Some? && base.value !in Complete(m) ==>
      !(applies && p.admissionBytes <= packed <= p.maxBytes) ==> m' == m
    // A hit only becomes more recent, and gives up the claim this transfer held.
    ensures base.Some? && base.value in Complete(m) ==>
      && base.value in m' && SameContent(m[base.value], m'[base.value]) && m'[base.value].mtime == now
      && SameMarkers(m[base.value], m'[base.value], {}, {claim})
    // A bundle between threshold and limit is admitted with its size and time.
    ensures base.Some? && base.value !in Complete(m) && applies && p.admissionBytes <= packed <= p.maxBytes ==>
      base.value in m' ==>
        && m'[base.value].complete && m'[base.value].bytes == packed && m'[base.value].mtime == now
        && m'[base.value].bundle.Some? && IsRange(g, None, head, m'[base.value].bundle.value)
  {
    if base.None? {
    } else if base.value in Complete(m) {
      HitMeans(base.value, claim, rival, now, m, m');
    } else if applies && p.admissionBytes <= packed <= p.maxBytes {
      var full :| IsRange(g, None, head, full) && full.bytes == packed &&
        var added := Admitted(m, base.value, full, packed, now, now); IsEviction(p, MtimeIn(added), added, m');
      var added := Admitted(m, base.value, full, packed, now, now);
      AdmitEffect(m, base.value, full, packed, now, now, Marker);
      hide Within, OldestFirst;
      assert Measured(m) ==> Measured(added);
    }
  }

  lemma HitMeans(base: Oid, claim: string, rival: Policy, now: Time, m: Entries, m': Entries)
    requires HitUsed(base, claim, rival, now, m, m') && base in Complete(m)
    ensures Measured(m) ==> Measured(m')
    ensures base in m' && SameContent(m[base], m'[base]) && m'[base].mtime == now
    ensures SameMarkers(m[base], m'[base], {}, {claim})
  {
    var claimed := Acquired(m, base, claim, now);
    var left :| IsEviction(rival, MtimeIn(claimed), claimed, left)
                && m' == Unclaimed(Touched(left, base, now), base, claim);
    AcquireEffect(m, base, claim, now);
    ClaimedStays(rival, claimed, left, base);
    TouchEffect(left, base, now);
    ReleaseEffect(Touched(left, base, now), base, claim);
    hide Within, OldestFirst;
    assert Measured(m) ==> Measured(left);
  }

  /** Streams the whole history; an admitting `spec` names the head's first parent. */
  method StageFull(w: Worker, src: Checkout, spec: CacheSpec, ns: string, packed: nat, applies: bool, now: Time)
    returns (ok: bool)
    requires src.Valid() && w.Valid() && w.history == src.history
    requires ns + "head" !in src.refs && ns + "base" !in src.refs && packed > 0
    requires SpecOk(spec) && !spec.useCached
    requires spec.admit.Some? ==> spec.entry.value in src.history[src.head]
    modifies w`repo, w.cache, src`refs
    ensures w.Valid() && src.refs == old(src.refs)
    ensures old(Sound(w.history, w.cache.entries)) ==> Sound(w.history, w.cache.entries)
    ensures ok <==> applies
    ensures ok ==> Reach(src.history, src.head) <= w.repo
    ensures !ok || spec.admit.None? ==> w.cache.entries == old(w.cache.entries)
    ensures ok && spec.admit.Some? ==>
      exists full :: IsRange(src.history, None, src.head, full) && full.bytes == packed &&
        AfterAdmission(old(w.cache.entries), spec, Payload(src.head, Some(full)), now, w.cache.entries)
  {
    assert src.head in src.history;
    hide Sound, Importable, Closed, ValidBundle, Covers, WellFormed, IsRange, IsEviction, AfterAdmission, Imported;
    var payload, _ := NoSeedPayload(src, ns, packed);
    FullArrives(src.history, w.repo, w.cache.entries, src.head, spec, payload);
    if spec.admit.Some? {
      FullBundleCoversParent(src.history, src.head, spec.entry.value, payload.bundle.value);
    }
    ok := w.Reconstruct(true, spec, payload, applies, now);
  }

  /** Claims the entry, streams the delta against its base and releases the claim however that went. An eviction by
    * another process in between cannot take the entry. */
  method StageHit(w: Worker, src: Checkout, base: Oid, claim: string, rival: Policy, ns: string, packed: nat,
                  applies: bool, now: Time) returns (ok: bool)
    requires src.Valid() && w.Valid() && w.history == src.history
    requires ns + "head" !in src.refs && ns + "base" !in src.refs && packed > 0
    requires base in src.objects && base in src.history[src.head] && base in Complete(w.cache.entries)
    modifies w`repo, w.cache, src`refs
    ensures w.Valid() && src.refs == old(src.refs)
    ensures old(Sound(w.history, w.cache.entries)) ==> Sound(w.history, w.cache.entries)
    ensures ok <==> applies && base in Import(old(w.repo), old(w.cache.entries)[base].bundle)
    ensures ok ==> Reach(src.history, src.head) <= w.repo
    ensures HitUsed(base, claim, rival, now, old(w.cache.entries), w.cache.entries)
  {
    assert src.head in src.history;
    hide Sound, Importable, Closed, ValidBundle, ValidPayload, Covers, WellFormed, IsRange, Imported;
    var spec := CacheSpec(Some(base), true, None, None);
    ClaimsKeep(w.history, w.cache.entries, base, claim, now);
    ghost var hit := w.cache.entries[base];
    AcquireEffect(w.cache.entries, base, claim, now);
    var claimed := w.cache.Acquire(base, claim, now);
    ghost var marked := w.cache.entries;
    var _ := w.cache.EvictRescan(rival);
    EvictionProtects(rival, MtimeIn(marked), marked, w.cache.entries, base, claim, now);
    EvictionKeeps(w.history, rival, marked, w.cache.entries);
    ClaimedStays(rival, marked, w.cache.entries, base);
    ghost var left := w.cache.entries;
    assert left[base].bundle == hit.bundle;
    var payload := WorkerPayload(src, base, ns, packed);
    HitExactly(w.history, w.repo, w.cache.entries, base, src.head, spec, payload.value);
    ok := w.Reconstruct(true, spec, payload.value, applies, now);
    ClaimsKeep(w.history, w.cache.entries, base, claim, now);
    w.cache.Unclaim(base, claim);
    assert IsEviction(rival, MtimeIn(marked), marked, left);
  }

  lemma ClaimedStays(p: Policy, m: Entries, m': Entries, base: Oid)
    requires IsEviction(p, MtimeIn(m), m, m') && base in m && m[base].claims != map[]
    ensures base in m' && m'[base] == m[base]
  {
    assert !Free(m, base);
  }

  // ---------------------------------------------------------------- choosing the route

  datatype Route = SeededDelta | CacheOrFull(warned: bool) | FullStaging | StagingFailed

  /** What the coordinator knows of the machine and project. */
  datatype Target = Target(hasSeed: bool, excludesPaths: bool, hasChanges: bool, cache: Policy)

  predicate SeededEligible(t: Target) { t.hasSeed && !t.excludesPaths && t.hasChanges }

  predicate NoSeedEligible(t: Target) { !t.hasSeed && !t.excludesPaths && t.hasChanges }

  /** `uploads` says whether copying the whole workspace succeeds; that fallback clears the work directory first. */
  method StageOrReconstruct(w: Worker, src: Checkout, t: Target, claim: string, rival: Policy, ns: string, packed: nat,
                            applies: bool, uploads: bool, now: Time) returns (route: Route)
    requires src.Valid() && w.Valid() && w.history == src.history
    requires ns + "head" !in src.refs && ns + "base" !in src.refs && packed > 0
    modifies w`repo, w.cache, src`refs
    ensures w.Valid() && src.refs == old(src.refs)
    ensures old(Sound(w.history, w.cache.entries)) ==> Sound(w.history, w.cache.entries)
    ensures old(Measured(w.cache.entries)) ==> Measured(w.cache.entries)
    // Only a project without excluded paths and with a local-change archive is reconstructed: from the seed when
    // there is one and the source knows its head, otherwise through the cache.
    ensures route.SeededDelta? <==>
      && t.hasSeed && !t.excludesPaths && t.hasChanges
      && applies && w.seedHead.Some? && w.seedHead.value in src.objects
    ensures route.CacheOrFull? <==>
      && !t.hasSeed && !t.excludesPaths && t.hasChanges
      && applies && HitServes(src, old(w.repo), old(w.cache.entries))
    ensures old(Sound(w.history, w.cache.entries)) && !t.hasSeed && !t.excludesPaths && t.hasChanges && applies ==>
      route.CacheOrFull?
    ensures !t.hasSeed && old(w.repo) == {} && TornHit(src, old(w.cache.entries)) ==>
      route == if uploads then FullStaging else StagingFailed
    ensures route.CacheOrFull? ==> (route.warned <==> Oversized(src, t.cache, packed, old(w.cache.entries)))
    ensures !route.SeededDelta? && !route.CacheOrFull? ==>
      w.repo == {} && route == if uploads then FullStaging else StagingFailed
    ensures route.SeededDelta? || route.CacheOrFull? ==> Reach(src.history, src.head) <= w.repo
    ensures t.hasSeed || t.excludesPaths || !t.hasChanges ==> w.cache.entries == old(w.cache.entries)
  {
    WhenHitsServe(src, w.repo, w.cache.entries);
    hide Sound;
    if !SeededEligible(t) {
      if NoSeedEligible(t) {
        var ok, warned := StageNoSeedReconstruct(w, src, t.cache, claim, rival, ns, packed, applies, now);
        if ok { return CacheOrFull(warned); }
      }
      route := StageWorkspace(w, uploads);
      return;
    }
    if w.seedHead.None? {
      route := StageWorkspace(w, uploads);
      return;
    }
    var payload := WorkerPayload(src, w.seedHead.value, ns, packed);
    if payload.None? {
      route := StageWorkspace(w, uploads);
      return;
    }
    SeedArrives(w.history, w.repo, w.seed, w.cache.entries, w.seedHead.value, src.head, payload.value);
    var ok := w.Reconstruct(false, ONE_SHOT, payload.value, applies, now);
    if !ok {
      route := StageWorkspace(w, uploads);
      return;
    }
    return SeededDelta;
  }

  /** A seed checkout plus the delta is the whole history, also when nothing had to be sent. */
  lemma SeedArrives(g: History, repo: set<Oid>, seed: set<Oid>, m: Entries, have: Oid, head: Oid, payload: Payload)
    requires WellFormed(g) && Closed(g, repo) && Closed(g, seed) && have in seed && head in g
    requires DeltaFor(g, have, head, payload)
    ensures ValidPayload(g, payload)
    ensures head in Imported(repo + seed, m, ONE_SHOT, payload)
    ensures Reach(g, head) <= Imported(repo + seed, m, ONE_SHOT, payload)
  {
    assert Closed(g, repo + seed);
    DeltaArrives(g, repo + seed, have, head, payload);
  }

  method StageWorkspace(w: Worker, uploads: bool) returns (route: Route)
    requires w.Valid()
    modifies w`repo
    ensures w.Valid() && w.repo == {} && route == if uploads then FullStaging else StagingFailed
  {
    w.repo := {};
    return if uploads then FullStaging else StagingFailed;
  }
}
