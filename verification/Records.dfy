/** Durable per-run values and the effect of each operation made under `run.lock`. */
module Records {
  import opened RunModel

  type RunId = nat
  type WorkerId = nat
  type Time = int

  datatype Option<+T> = None | Some(value: T)

  /** `machine` is empty and `children` is not for a build request; a target run has a `parent`. */
  datatype RunRecord = RunRecord(
    machine: string,
    state: RunState,
    updatedAt: Time,
    cancelAt: Option<Time>,
    parent: Option<RunId>,
    children: seq<RunId>,
    sourcePath: string)

  datatype Lease = Lease(owner: WorkerId, expiresAt: Time)

  datatype BuildResult = BuildResult(state: RunState, exitCode: int)

  type RecordMap = map<RunId, RunRecord>
  type LeaseMap = map<RunId, Lease>
  type ResultMap = map<RunId, BuildResult>

  /** Worker lease lifetime: 30 minutes, in seconds. */
  const LEASE_TTL: Time := 1800

  /** What `Transition` leaves behind, or None when it reports an error. */
  function Transitioned(rs: RecordMap, id: RunId, to: RunState, now: Time): Option<RecordMap> {
    if id in rs && CanTransition(rs[id].state, to) && !IsTerminal(rs[id].state) then
      Some(rs[id := rs[id].(state := to, updatedAt := now)])
    else
      None
  }

  /** What `RequestCancellation` leaves behind, or None when it reports an error. */
  function CancelRequested(rs: RecordMap, id: RunId, now: Time): Option<RecordMap> {
    if id !in rs || rs[id].state.Succeeded? || rs[id].state.Failed? || rs[id].state.Aborted? then None
    else if rs[id].cancelAt.Some? then Some(rs)
    else if IsTerminal(rs[id].state) then None
    else Some(rs[id := rs[id].(cancelAt := Some(now), updatedAt := now)])
  }

  /** What cancelling a run that was loaded in state `loaded` leaves behind: aborted at once when it was queued,
    * asked to stop when it had begun; None when neither applies or the store refuses. */
  function CancelledAs(rs: RecordMap, id: RunId, loaded: RunState, now: Time): Option<RecordMap> {
    if loaded.Queued? then Transitioned(rs, id, Aborted, now)
    else if loaded.Staging? || loaded.Running? || loaded.Committing? then CancelRequested(rs, id, now)
    else None
  }

  /** Terminal, or carrying a cancellation request. */
  predicate Stopped(r: RunRecord) { IsTerminal(r.state) || r.cancelAt.Some? }

  /** What `PublishResult` leaves behind, or None when it reports an error. */
  function Published(rs: RecordMap, results: ResultMap, id: RunId, value: BuildResult): Option<ResultMap> {
    if id in rs && !IsTerminal(rs[id].state) && id !in results then Some(results[id := value]) else None
  }

  function LeaseClaimed(leases: LeaseMap, id: RunId, owner: WorkerId, now: Time, ttl: Time): Option<LeaseMap> {
    if id in leases && leases[id].expiresAt > now then None
    else Some(leases[id := Lease(owner, now + ttl)])
  }

  function LeaseRenewed(leases: LeaseMap, id: RunId, owner: WorkerId, now: Time, ttl: Time): Option<LeaseMap> {
    if id in leases && leases[id].owner == owner && leases[id].expiresAt > now then
      Some(leases[id := Lease(owner, now + ttl)])
    else
      None
  }

  function LeaseReleased(leases: LeaseMap, id: RunId, owner: WorkerId): Option<LeaseMap> {
    if id in leases && leases[id].owner == owner then Some(leases - {id}) else None
  }

  /** A target's record may only move forward, keeps its identity, and is frozen once terminal. */
  predicate Advances(r: RunRecord, r': RunRecord) {
    && r'.machine == r.machine && r'.parent == r.parent
    && r'.children == r.children && r'.sourcePath == r.sourcePath
    && Rank(r.state) <= Rank(r'.state)
    && (Rank(r.state) == Rank(r'.state) ==> r.state == r'.state)
    && (r.cancelAt.Some? ==> r'.cancelAt == r.cancelAt)
    && (IsTerminal(r.state) ==> r' == r)
  }

  // ---------------------------------------------------------------- aggregation

  predicate Failing(s: RunState) { s.Failed? || s.Lost? || s.Aborted? }

  /** The state a build request gets from its targets' states, with the no-machine flag. */
  function Aggregate(states: seq<RunState>): (RunState, bool) {
    if states == [] || exists s :: s in states && !IsTerminal(s) then (Aggregating, false)
    else if exists s :: s in states && Failing(s) then (Failed, false)
    else (Succeeded, forall s :: s in states ==> s.Unavailable?)
  }

  /** Live while a target is live; failed if one failed, was lost or was aborted; succeeded if each succeeded or was
    * unavailable, and flagged if all were unavailable. */
  lemma AggregateMeans(states: seq<RunState>)
    ensures var (state, noMachine) := Aggregate(states);
            && (state.Aggregating? <==> states == [] || exists s :: s in states && !IsTerminal(s))
            && (state.Failed? ==> exists s :: s in states && (s.Failed? || s.Lost? || s.Aborted?))
            && (state.Succeeded? <==> states != [] && forall s :: s in states ==> s.Succeeded? || s.Unavailable?)
            && (state.Aggregating? || state.Failed? || state.Succeeded?)
            && (noMachine <==> states != [] && forall s :: s in states ==> s.Unavailable?)
  {
    if states != [] { assert states[0] in states; }
  }
}
