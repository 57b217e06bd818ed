/** The spec of the Kubernetes Lease record that the election script writes,
    the update step applied before every write, and the timing arithmetic of
    the election loop. Every timestamp is an integer number of milliseconds. */
module LeaseSpec {

  datatype Option<T> = None | Some(value: T)

  /** LEASE_DURATION: seconds a claim stays valid after its renew time. */
  const LeaseDuration: int := 10
  /** RENEW_LEAD_TIME: milliseconds before expiration at which the holder renews. */
  const RenewLeadTime: int := 500
  /** LEASE_DURATION in milliseconds. */
  const LeaseDurationMs: int := LeaseDuration * 1000

  /** The fields of `lease.spec`; each may be unset on a freshly created lease. */
  datatype Spec = Spec(
    holder: Option<string>,
    durationSeconds: Option<int>,
    renewTime: Option<int>,
    acquireTime: Option<int>,
    transitions: Option<int>)

  /** The spec of a lease created with metadata only: nothing is set. */
  const EmptySpec: Spec := Spec(None, None, None, None, None)

  /** `lease_transitions` read as a count, an unset value counting as zero. */
  function TransitionCount(t: Option<int>): int
  {
    if t.Some? then t.value else 0
  }

  /** The in-place update `update_lease` makes before writing: renew time and
      duration always; holder, acquire time and the transition count only when
      the recorded holder is not `id`. */
  function Updated(s: Spec, id: string, now: int): (r: Spec)
    ensures r.renewTime == Some(now) && r.durationSeconds == Some(LeaseDuration)
    ensures r.holder == Some(id)
    ensures s.holder != Some(id) ==>
              && r.acquireTime == Some(now)
              && r.transitions.Some?
              && TransitionCount(r.transitions) == TransitionCount(s.transitions) + 1
    ensures s.holder != Some(id) && TransitionCount(s.transitions) == 0 ==> r.transitions == Some(1)
    ensures s.holder == Some(id) ==>
              r.holder == s.holder && r.acquireTime == s.acquireTime && r.transitions == s.transitions
  {
    var renewed := s.(renewTime := Some(now), durationSeconds := Some(LeaseDuration));
    if Some(id) != s.holder then
      renewed.(holder := Some(id),
               acquireTime := Some(now),
               transitions := if s.transitions.Some? && s.transitions.value != 0
                              then Some(s.transitions.value + 1)
                              else Some(1))
    else
      renewed
  }

  /** The instant the observed claim runs out: renew time plus LEASE_DURATION,
      or `now` itself when the lease was never renewed. The lease is free to
      claim exactly when this is not after `now`. */
  function Expiration(s: Spec, now: int): (e: int)
    ensures e <= now <==> s.renewTime.None? || s.renewTime.value + LeaseDurationMs <= now
    ensures s.renewTime.None? ==> e == now
  {
    if s.renewTime.Some? then s.renewTime.value + LeaseDurationMs else now
  }

  /** When the leader renews: RENEW_LEAD_TIME before its claim runs out. */
  function RenewDue(renewTime: int): (due: int)
    ensures due == renewTime + 9500
    ensures renewTime < due < renewTime + LeaseDurationMs
  {
    renewTime + LeaseDuration * 1000 - RenewLeadTime
  }

  /** A lease just written at `now` is still live at its renewal deadline,
      so the renewal is scheduled before any peer may treat it as expired. */
  lemma RenewalPrecedesExpiry(s: Spec, id: string, now: int)
    ensures var due := RenewDue(now);
            Expiration(Updated(s, id, now), due) > due
  {
  }

  /** One successful write of the lease by process `id` at time `now`. */
  datatype Write = Write(id: string, now: int)

  /** The spec after a history of successful writes, oldest first. */
  function Replay(s: Spec, writes: seq<Write>): Spec
    decreases |writes|
  {
    if writes == [] then s else Replay(Updated(s, writes[0].id, writes[0].now), writes[1..])
  }

  /** How many of the writes changed the holder, starting from `holder`. */
  function HolderChanges(holder: Option<string>, writes: seq<Write>): nat
    decreases |writes|
  {
    if writes == [] then 0
    else (if holder != Some(writes[0].id) then 1 else 0) + HolderChanges(Some(writes[0].id), writes[1..])
  }

  /** Over any history of writes the transition count grows by exactly the
      number of holder changes: never on a same-holder renewal. */
  lemma {:induction false} TransitionsCountHolderChanges(s: Spec, writes: seq<Write>)
    ensures TransitionCount(Replay(s, writes).transitions)
            == TransitionCount(s.transitions) + HolderChanges(s.holder, writes)
    decreases |writes|
  {
    if writes != [] {
      TransitionsCountHolderChanges(Updated(s, writes[0].id, writes[0].now), writes[1..]);
    }
  }

  /** Over any non-empty history the holder is the last writer and the
      renew time is the time of the last write. */
  lemma {:induction false} ReplayHolderIsLastWriter(s: Spec, writes: seq<Write>)
    requires writes != []
    ensures Replay(s, writes).holder == Some(writes[|writes| - 1].id)
    ensures Replay(s, writes).renewTime == Some(writes[|writes| - 1].now)
    decreases |writes|
  {
    if |writes| > 1 {
      ReplayHolderIsLastWriter(Updated(s, writes[0].id, writes[0].now), writes[1..]);
    }
  }
}
