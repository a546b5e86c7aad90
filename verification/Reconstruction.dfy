/** Delta transfer: the coordinator sends the commits a worker lacks and the worker rebuilds the history. */
module Reconstruction {
  import opened Records
  import opened Commits
  import opened BundleCache
  import opened CacheSafety

  // ---------------------------------------------------------------- importing

  lemma UnbundleClosed(g: History, repo: set<Oid>, b: Bundle)
    requires Closed(g, repo) && ValidBundle(g, b)
    ensures Closed(g, Unbundled(repo, b))
  {
  }

  /** A worker that holds `have` can import the delta, and then holds everything reachable from `tip`. */
  lemma DeltaSuffices(g: History, repo: set<Oid>, have: Oid, tip: Oid, b: Bundle)
    requires WellFormed(g) && Closed(g, repo) && have in repo && IsRange(g, Some(have), tip, b)
    ensures b.prerequisites <= repo && b.commits !! Reach(g, have)
    ensures Reach(g, tip) <= Unbundled(repo, b)
  {
    ReachLeast(g, have, repo);
  }

  /** When the range is empty the worker already holds everything. */
  lemma EmptyRangeSuffices(g: History, repo: set<Oid>, have: Oid, tip: Oid)
    requires WellFormed(g) && Closed(g, repo) && have in repo && (have == tip || tip in Reach(g, have))
    ensures Reach(g, tip) <= repo
  {
    ReachLeast(g, have, repo);
    ReachLeast(g, tip, repo);
  }

  /** The full bundle of a commit serves as the cache entry for its first parent. */
  lemma FullBundleCoversParent(g: History, tip: Oid, base: Oid, b: Bundle)
    requires WellFormed(g) && tip in g && base in g[tip] && IsRange(g, None, tip, b)
    ensures Covers(g, base, b) && Covers(g, tip, b)
  {
    ReachSelf(g, tip);
    ReachClosed(g, tip);
    ReachLeast(g, base, Reach(g, tip));
    assert b.commits == Reach(g, tip);
  }

  datatype Payload = Payload(head: Oid, bundle: Option<Bundle>)

  /** `admit` carries the recorded size and time. */
  datatype CacheSpec = CacheSpec(entry: Option<Oid>, useCached: bool, admit: Option<(nat, Time)>, evict: Option<Policy>)

  const ONE_SHOT := CacheSpec(None, false, None, None)

  function Import(repo: set<Oid>, b: Option<Bundle>): set<Oid> {
    if b.Some? then Unbundled(repo, b.value) else repo
  }

  function CachedBundle(m: Entries, entry: Option<Oid>): Option<Bundle> {
    if entry.Some? && entry.value in m then m[entry.value].bundle else None
  }

  /** The repository once the cached bundle (on a hit) and then the payload have been imported. */
  function Imported(repo: set<Oid>, m: Entries, spec: CacheSpec, payload: Payload): set<Oid> {
    Import(if spec.useCached then Import(repo, CachedBundle(m, spec.entry)) else repo, payload.bundle)
  }

  predicate SpecOk(spec: CacheSpec) {
    (spec.useCached || spec.admit.Some? || spec.evict.Some?) ==> spec.entry.Some?
  }

  ghost predicate ValidPayload(g: History, payload: Payload) {
    payload.bundle.Some? ==> ValidBundle(g, payload.bundle.value)
  }

  /** Every bundle kept in the cache, complete or not, can be imported safely. */
  ghost predicate Importable(g: History, m: Entries) {
    forall b :: b in m && m[b].bundle.Some? ==> ValidBundle(g, m[b].bundle.value)
  }

  lemma ImportedClosed(g: History, repo: set<Oid>, m: Entries, spec: CacheSpec, payload: Payload)
    requires Closed(g, repo) && Importable(g, m) && ValidPayload(g, payload)
    ensures Closed(g, Imported(repo, m, spec, payload))
  {
  }

  lemma TouchKeeps(g: History, m: Entries, base: Oid, now: Time)
    requires Importable(g, m)
    ensures Importable(g, Touched(m, base, now)) && (Sound(g, m) ==> Sound(g, Touched(m, base, now)))
  {
  }

  lemma ClaimsKeep(g: History, m: Entries, base: Oid, claim: string, now: Time)
    requires Importable(g, m)
    ensures Importable(g, Acquired(m, base, claim, now)) && (Sound(g, m) ==> Sound(g, Acquired(m, base, claim, now)))
    ensures Importable(g, Unclaimed(m, base, claim)) && (Sound(g, m) ==> Sound(g, Unclaimed(m, base, claim)))
  {
  }

  lemma DirectoryKeeps(g: History, m: Entries, base: Oid, now: Time)
    requires Importable(g, m)
    ensures Importable(g, WithDirectory(m, base, now)) && (Sound(g, m) ==> Sound(g, WithDirectory(m, base, now)))
  {
  }

  lemma AdmissionKeeps(g: History, m: Entries, base: Oid, b: Bundle, bytes: nat, lastUsed: Time, now: Time)
    requires Importable(g, m) && ValidBundle(g, b)
    ensures Importable(g, Admitted(m, base, b, bytes, lastUsed, now))
    ensures Sound(g, m) && Covers(g, base, b) ==> Sound(g, Admitted(m, base, b, bytes, lastUsed, now))
  {
    if Sound(g, m) && Covers(g, base, b) { CutOffAdmission(g, m, base, b, bytes, lastUsed, now, Marker); }
  }

  lemma EvictionKeeps(g: History, p: Policy, m: Entries, m': Entries)
    requires Importable(g, m) && IsEviction(p, MtimeIn(m), m, m')
    ensures Importable(g, m') && (Sound(g, m) ==> Sound(g, m'))
  {
    hide Within, OldestFirst;
  }

  /** The cache after a reconstruction that got as far as admission. */
  ghost predicate AfterAdmission(m: Entries, spec: CacheSpec, payload: Payload, now: Time, m': Entries)
    requires SpecOk(spec) && spec.admit.Some? && payload.bundle.Some?
  {
    var full := Admitted(m, spec.entry.value, payload.bundle.value, spec.admit.value.0, spec.admit.value.1, now);
    if spec.evict.Some? then IsEviction(spec.evict.value, MtimeIn(full), full, m') else m' == full
  }

  class Worker {
    const history: History
    const cache: Cache
    var seed: set<Oid>
    var seedHead: Option<Oid>
    var repo: set<Oid>

    /** Repositories are whole and every bundle file in the cache is whole or torn. */
    ghost predicate Valid()
      reads this, cache
    {
      && WellFormed(history) && Closed(history, seed) && Closed(history, repo)
      && (seedHead.Some? ==> seedHead.value in seed)
      && Importable(history, cache.entries)
    }

    /** The payload may be admitted under the key without breaking a hit. */
    ghost predicate Admissible(spec: CacheSpec, payload: Payload) {
      spec.admit.Some? && spec.entry.Some? && payload.bundle.Some? ==>
        Covers(history, spec.entry.value, payload.bundle.value)
    }

    constructor (history: History, seed: set<Oid>, seedHead: Option<Oid>)
      requires WellFormed(history) && Closed(history, seed) && (seedHead.Some? ==> seedHead.value in seed)
      ensures Valid() && fresh(cache) && this.history == history && this.seed == seed && this.seedHead == seedHead
      ensures repo == {} && cache.entries == map[] && Sound(history, cache.entries)
    {
      this.history, this.seed, this.seedHead, repo := history, seed, seedHead, {};
      cache := new Cache();
    }

    /** The worker side, in order: copy seed, import, check out, apply changes, admit, evict. */
    method Reconstruct(noSeed: bool, spec: CacheSpec, payload: Payload, applies: bool, now: Time) returns (ok: bool)
      requires Valid() && ValidPayload(history, payload)
      modifies `repo, cache
      ensures Valid()
      ensures old(Sound(history, cache.entries)) && Admissible(spec, payload) ==> Sound(history, cache.entries)
      ensures ok <==>
        && SpecOk(spec) && (spec.useCached ==> spec.entry.value in old(cache.entries))
        && payload.head in Imported(if noSeed then old(repo) else old(repo) + seed, old(cache.entries), spec, payload)
        && applies && (spec.admit.Some? ==> payload.bundle.Some?)
      ensures ok ==> Reach(history, payload.head) <= repo
      ensures (ok ==> spec.admit.None?) && (spec.admit.Some? ==> payload.bundle.Some?) ==>
        cache.entries == if SpecOk(spec) && spec.useCached
                         then Touched(old(cache.entries), spec.entry.value, now) else old(cache.entries)
      ensures ok && spec.admit.Some? && !spec.useCached ==>
          AfterAdmission(old(cache.entries), spec, payload, now, cache.entries)
    {
      hide Sound, Importable, Closed, ValidBundle, ValidPayload, Covers, AfterAdmission, WellFormed, Touched, Imported;
      if !SpecOk(spec) { return false; }
      ok := ImportAll(noSeed, spec, payload, now);
      if !ok { return; }
      if payload.head !in repo { return false; }
      ReachLeast(history, payload.head, repo);
      if !applies { return false; }
      if spec.admit.Some? {
        ok := AdmitPayload(spec, payload, now);
        if !ok { return; }
      }
      return true;
    }

    /** Copies the seed and imports best-effort, the cached bundle before the payload that extends it. */
    method ImportAll(noSeed: bool, spec: CacheSpec, payload: Payload, now: Time) returns (ok: bool)
      requires Valid() && ValidPayload(history, payload) && SpecOk(spec)
      modifies `repo, cache
      ensures Valid() && (old(Sound(history, cache.entries)) ==> Sound(history, cache.entries))
      ensures repo == Imported(if noSeed then old(repo) else old(repo) + seed, old(cache.entries), spec, payload)
      ensures ok <==> (spec.useCached ==> spec.entry.value in old(cache.entries))
      ensures cache.entries == if spec.useCached then Touched(old(cache.entries), spec.entry.value, now)
                               else old(cache.entries)
    {
      if !noSeed { repo := repo + seed; }
      ImportedClosed(history, repo, cache.entries, spec, payload);
      hide Sound, Importable, Closed, ValidBundle;
      if spec.useCached {
        repo := Import(repo, CachedBundle(cache.entries, spec.entry));
        repo := Import(repo, payload.bundle);
        TouchKeeps(history, cache.entries, spec.entry.value, now);
        ok := cache.Touch(spec.entry.value, now);
        return;
      }
      repo := Import(repo, payload.bundle);
      return true;
    }

    /** Writes the payload bundle into the entry and evicts; without a bundle only the directory appears. */
    method AdmitPayload(spec: CacheSpec, payload: Payload, now: Time) returns (ok: bool)
      requires Valid() && ValidPayload(history, payload) && SpecOk(spec) && spec.admit.Some?
      modifies cache
      ensures old(Sound(history, cache.entries)) && Admissible(spec, payload) ==> Sound(history, cache.entries)
      ensures Valid() && (ok <==> payload.bundle.Some?)
      ensures ok ==> AfterAdmission(old(cache.entries), spec, payload, now, cache.entries)
    {
      hide Covers, Sound, Importable, Closed, WellFormed, ValidBundle, WithDirectory, AdmittedUpTo, IsEviction;
      var entry, m := spec.entry.value, cache.entries;
      if payload.bundle.None? {
        cache.entries := WithDirectory(cache.entries, entry, now);
        DirectoryKeeps(history, m, entry, now);
        return false;
      }
      var (bytes, lastUsed) := spec.admit.value;
      cache.Admit(entry, payload.bundle.value, bytes, lastUsed, now, Marker);
      ghost var full := cache.entries;
      AdmissionKeeps(history, m, entry, payload.bundle.value, bytes, lastUsed, now);
      if spec.evict.Some? {
        var _ := cache.EvictRescan(spec.evict.value);
        EvictionKeeps(history, spec.evict.value, full, cache.entries);
      }
      return true;
    }
  }
}
