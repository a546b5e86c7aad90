/** What the cache promises over any sequence of its operations. */
module CacheSafety {
  import opened Records
  import opened Commits
  import opened BundleCache

  // ---------------------------------------------------------------- operations by any process

  datatype CacheOp =
    | OpAdmit(base: Oid, bundle: Bundle, bytes: nat, lastUsed: Time, at: Time, upTo: Phase)
    | OpAcquire(base: Oid, claim: string, at: Time)
    | OpRelease(base: Oid, claim: string)
    | OpTouch(base: Oid, at: Time)
    | OpEvictLRU(policy: Policy)
    | OpEvictRescan(policy: Policy)
    | OpReap(policy: Policy, partialCutoff: Time, claimCutoff: Time)

  ghost predicate CacheStep(op: CacheOp, m: Entries, m': Entries) {
    match op
    case OpAdmit(base, bundle, bytes, lastUsed, at, upTo) =>
      m' == AdmittedUpTo(m, base, bundle, bytes, lastUsed, at, upTo)
    case OpAcquire(base, claim, at) => m' == Acquired(m, base, claim, at)
    case OpRelease(base, claim) => m' == Unclaimed(m, base, claim)
    case OpTouch(base, at) => m' == Touched(m, base, at)
    case OpEvictLRU(p) => IsEviction(p, LastUsedIn(m), m, m')
    case OpEvictRescan(p) => IsEviction(p, MtimeIn(m), m, m')
    case OpReap(p, partialCutoff, claimCutoff) =>
      var swept := WithoutStaleClaims(WithoutPartials(m, partialCutoff), claimCutoff);
      IsEviction(p, MtimeIn(swept), swept, m')
  }

  ghost predicate CacheRun(ops: seq<CacheOp>, states: seq<Entries>) {
    && |states| == |ops| + 1
    && forall i :: 0 <= i < |ops| ==> CacheStep(ops[i], states[i], states[i + 1])
  }

  // ---------------------------------------------------------------- claims protect entries

  predicate Protected(m: Entries, base: Oid, claim: string, since: Time) {
    base in m && m[base].complete && claim in m[base].claims && m[base].claims[claim] >= since
  }

  /** The operation neither releases the claim nor outdates it. */
  predicate Spares(op: CacheOp, base: Oid, claim: string, since: Time) {
    match op
    case OpRelease(b, c) => b != base || c != claim
    case OpReap(_, _, cutoff) => cutoff <= since
    case OpAcquire(b, c, at) => b == base && c == claim ==> at >= since
    case _ => true
  }

  lemma EvictionProtects(p: Policy, age: Oid -> Time, m: Entries, m': Entries, base: Oid, claim: string, since: Time)
    requires Protected(m, base, claim, since) && IsEviction(p, age, m, m')
    ensures Protected(m', base, claim, since)
  {
  }

  lemma StepProtects(op: CacheOp, m: Entries, m': Entries, base: Oid, claim: string, since: Time)
    requires Protected(m, base, claim, since) && CacheStep(op, m, m') && Spares(op, base, claim, since)
    ensures Protected(m', base, claim, since)
  {
    hide IsEviction;
    match op {
      case OpEvictLRU(p) => EvictionProtects(p, LastUsedIn(m), m, m', base, claim, since);
      case OpEvictRescan(p) => EvictionProtects(p, MtimeIn(m), m, m', base, claim, since);
      case OpReap(p, partialCutoff, claimCutoff) =>
        var swept := WithoutStaleClaims(WithoutPartials(m, partialCutoff), claimCutoff);
        EvictionProtects(p, MtimeIn(swept), swept, m', base, claim, since);
      case _ =>
    }
  }

  /** The claim on a complete entry is acquired first; nothing after it, up to `k`, releases or outdates it. */
  ghost predicate ClaimHeld(ops: seq<CacheOp>, states: seq<Entries>, base: Oid, claim: string, since: Time, k: nat) {
    && CacheRun(ops, states) && 1 <= k <= |ops|
    && ops[0] == OpAcquire(base, claim, since) && base in Complete(states[0])
    && forall i :: 1 <= i < k ==> Spares(ops[i], base, claim, since)
  }

  /** An entry whose claim was acquired stays complete until that claim is released or passes the cutoff. */
  lemma {:induction false} ClaimProtects(ops: seq<CacheOp>, states: seq<Entries>, base: Oid, claim: string,
                                         since: Time, k: nat)
    requires ClaimHeld(ops, states, base, claim, since, k)
    ensures Protected(states[k], base, claim, since)
  {
    assert CacheStep(ops[0], states[0], states[1]);
    if k > 1 {
      ClaimProtects(ops, states, base, claim, since, k - 1);
      StepProtects(ops[k - 1], states[k - 1], states[k], base, claim, since);
    }
  }

  // ---------------------------------------------------------------- a hit means the whole history

  /** A bundle that needs nothing and carries everything reachable from `base`. */
  ghost predicate Covers(g: History, base: Oid, b: Bundle) {
    base in g && ValidBundle(g, b) && b.prerequisites == {} && Reach(g, base) <= b.commits
  }

  ghost predicate Sound(g: History, m: Entries) {
    forall b :: b in m && m[b].complete ==> m[b].bundle.Some? && Covers(g, b, m[b].bundle.value)
  }

  /**
   * An admission cut off anywhere leaves every hit sound, unless it was overwriting the bundle of an
   * entry that already was a hit; and until the marker is written it makes no new hit.
   */
  lemma CutOffAdmission(g: History, m: Entries, base: Oid, bundle: Bundle, bytes: nat, lastUsed: Time, now: Time,
                        phase: Phase)
    requires Sound(g, m) && Covers(g, base, bundle)
    ensures var after := AdmittedUpTo(m, base, bundle, bytes, lastUsed, now, phase);
            && (Sound(g, after) <==> !(base in Complete(m) && phase.PartOfBundle?))
            && Complete(after) == if phase.Marker? then Complete(m) + {base} else Complete(m)
  {
    hide Covers;
    var after := AdmittedUpTo(m, base, bundle, bytes, lastUsed, now, phase);
    assert base in after;
    forall b | b in after && b != base ensures b in m && after[b] == m[b] { }
    match phase {
      case PartOfBundle => assert after[base].bundle.None?;
      case _ =>
    }
  }

  /** What the callers guarantee: admitted bundles cover their key, and no hit's bundle is left half written. */
  ghost predicate Careful(g: History, op: CacheOp, m: Entries) {
    op.OpAdmit? ==> Covers(g, op.base, op.bundle) && !(op.base in Complete(m) && op.upTo.PartOfBundle?)
  }

  lemma StepSound(g: History, op: CacheOp, m: Entries, m': Entries)
    requires Sound(g, m) && CacheStep(op, m, m') && Careful(g, op, m)
    ensures Sound(g, m')
  {
    hide Covers;
    if op.OpAdmit? { CutOffAdmission(g, m, op.base, op.bundle, op.bytes, op.lastUsed, op.at, op.upTo); }
  }

  lemma {:induction false} RunSound(g: History, ops: seq<CacheOp>, states: seq<Entries>, k: nat)
    requires CacheRun(ops, states) && k <= |ops| && Sound(g, states[0])
    requires forall i :: 0 <= i < k ==> Careful(g, ops[i], states[i])
    ensures Sound(g, states[k])
  {
    if k > 0 {
      RunSound(g, ops, states, k - 1);
      StepSound(g, ops[k - 1], states[k - 1], states[k]);
    }
  }
}
