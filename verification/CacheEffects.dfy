/** What each cache operation leaves behind, entry by entry and field by field. */
module CacheEffects {
  import opened Records
  import opened Commits
  import opened BundleCache
  import opened CacheSafety

  /** No entry but `base` came, went or changed. */
  ghost predicate OthersSame(m: Entries, m': Entries, base: Oid) {
    forall b :: b != base ==> (b in m <==> b in m') && (b in m ==> m'[b] == m[b])
  }

  predicate SameContent(c: Cached, c': Cached) {
    c'.bundle == c.bundle && c'.bytes == c.bytes && c'.lastUsed == c.lastUsed && c'.complete == c.complete
  }

  /** `c'` has the markers of `c` and those in `more`, each as old as before unless it is in `more`. */
  predicate SameMarkers(c: Cached, c': Cached, more: set<string>, less: set<string>) {
    && c'.claims.Keys == c.claims.Keys + more - less
    && forall x :: x in c.claims && x !in more && x !in less ==> c'.claims[x] == c.claims[x]
  }

  /** Acquiring marks a complete entry, which is protected from then on; any other entry is refused. */
  lemma AcquireEffect(m: Entries, base: Oid, claim: string, now: Time)
    ensures var m' := Acquired(m, base, claim, now);
            && OthersSame(m, m', base)
            && (!(base in m && m[base].complete) ==> m' == m)
            && (base in m && m[base].complete ==>
                  && base in m' && SameContent(m[base], m'[base]) && m'[base].mtime == m[base].mtime
                  && SameMarkers(m[base], m'[base], {claim}, {}) && m'[base].claims[claim] == now
                  && Protected(m', base, claim, now) && !Free(m', base))
  {
    var m' := Acquired(m, base, claim, now);
    if base in m && m[base].complete { assert claim in m'[base].claims; }
  }

  /** Releasing takes that marker and no other; an entry whose only marker it was can be evicted again. */
  lemma ReleaseEffect(m: Entries, base: Oid, claim: string)
    ensures var m' := Unclaimed(m, base, claim);
            && OthersSame(m, m', base) && (base in m <==> base in m')
            && (base in m ==>
                  && SameContent(m[base], m'[base]) && m'[base].mtime == m[base].mtime
                  && SameMarkers(m[base], m'[base], {}, {claim})
                  && (m[base].complete && m[base].claims.Keys <= {claim} ==> Free(m', base)))
  {
    var m' := Unclaimed(m, base, claim);
    if base in m && m[base].claims.Keys <= {claim} { assert m'[base].claims == map[]; }
  }

  /** A hit counts as use: the modification time moves and nothing else does. */
  lemma TouchEffect(m: Entries, base: Oid, now: Time)
    ensures var m' := Touched(m, base, now);
            && OthersSame(m, m', base) && (base in m <==> base in m')
            && (base in m ==>
                  SameContent(m[base], m'[base]) && m'[base].claims == m[base].claims && m'[base].mtime == now)
  {
  }

  /** An admission cut off after `phase` has written exactly what comes up to it, and never touches a marker. */
  lemma AdmitEffect(m: Entries, base: Oid, bundle: Bundle, bytes: nat, lastUsed: Time, now: Time, phase: Phase)
    ensures var m' := AdmittedUpTo(m, base, bundle, bytes, lastUsed, now, phase);
            var metaWritten := phase.Metadata? || phase.Marker?;
            && OthersSame(m, m', base) && base in m'
            && m'[base].claims == (if base in m then m[base].claims else map[])
            && (m'[base].complete <==> phase.Marker? || (base in m && m[base].complete))
            && m'[base].bundle == (if phase.Directory? then (if base in m then m[base].bundle else None)
                                   else if phase.PartOfBundle? then None else Some(bundle))
            && (metaWritten ==> m'[base].bytes == bytes && m'[base].lastUsed == lastUsed && m'[base].mtime == now)
            && (!metaWritten && base in m ==>
                  && m'[base].bytes == m[base].bytes && m'[base].lastUsed == m[base].lastUsed
                  && m'[base].mtime == m[base].mtime)
  {
  }

  /** The maintenance sweep drops exactly old partial entries and old markers. */
  lemma SweepEffect(m: Entries, partialCutoff: Time, claimCutoff: Time)
    ensures var m' := WithoutStaleClaims(WithoutPartials(m, partialCutoff), claimCutoff);
            && (forall b :: b in m' <==> b in m && (m[b].complete || m[b].mtime >= partialCutoff))
            && forall b :: b in m' ==>
                 && SameContent(m[b], m'[b]) && m'[b].mtime == m[b].mtime
                 && (forall c :: c in m'[b].claims <==> c in m[b].claims && m[b].claims[c] >= claimCutoff)
                 && forall c :: c in m'[b].claims ==> m'[b].claims[c] == m[b].claims[c]
  {
  }

  // ---------------------------------------------------------------- recorded sizes are real sizes

  /** meta.json tells the size of the bundle beside it. */
  ghost predicate Measured(m: Entries) {
    forall b :: b in m && m[b].complete && m[b].bundle.Some? ==> m[b].bytes == m[b].bundle.value.bytes
  }

  /** An operation keeps sizes true if what it admits is measured and no hit is left between bundle and meta.json. */
  predicate Measures(op: CacheOp, m: Entries) {
    op.OpAdmit? ==> op.bytes == op.bundle.bytes && !(op.base in Complete(m) && op.upTo.WholeBundle?)
  }

  lemma StepMeasured(op: CacheOp, m: Entries, m': Entries)
    requires Measured(m) && CacheStep(op, m, m') && Measures(op, m)
    ensures Measured(m')
  {
    if op.OpAdmit? { AdmitEffect(m, op.base, op.bundle, op.bytes, op.lastUsed, op.at, op.upTo); }
  }

  /** An entry just admitted, no older than the others, is the last free one an eviction drops. */
  lemma NewestGoesLast(p: Policy, m: Entries, base: Oid, bundle: Bundle, bytes: nat, lastUsed: Time,
                       now: Time, m': Entries)
    requires forall b :: b in m ==> m[b].mtime < now
    requires var added := Admitted(m, base, bundle, bytes, lastUsed, now); IsEviction(p, MtimeIn(added), added, m')
    ensures base in m' || forall b :: !Free(m', b)
  {
    var added := Admitted(m, base, bundle, bytes, lastUsed, now);
    AdmitEffect(m, base, bundle, bytes, lastUsed, now, Marker);
    assert base in added && OldestFirst(MtimeIn(added), added, m');
  }
}
