/** The election engine of `lease-test.py`: fetch-or-create, the update and
    write of the lease, the acquisition loop and one steady-state renewal.
    Each operation is a method over a `Store` object, proved to follow a
    function on the store's state; the properties the script relies on are
    proved about those functions.

    Everything the script gets from outside its own code is an input: the
    clock samples, the infrastructure failures of each store call and the
    writes of rival processes. A rival's write is linearized right after this
    process's read, which is where it can defeat a create or a replace. */
module Election {
  import opened LeaseSpec
  import opened LeaseStore

  /** What the environment does during one `get_lease` call. */
  datatype Fetch = Fetch(
    readFault: Option<ApiError>,
    rival: Option<Spec>,
    createFault: Option<ApiError>)

  /** A fetch with no failure and no rival write. */
  const QuietFetch: Fetch := Fetch(None, None, None)

  /** The environment of one turn of the acquisition loop: the fetch, the clock
      sample taken to compute the expiration, the clock sample `update_lease`
      stamps the lease with, and a failure injected into the replace. */
  datatype Round = Round(
    fetch: Fetch,
    checkedAt: int,
    stampedAt: int,
    replaceFault: Option<ApiError>)

  /** The 409 Conflict that the acquisition loop swallows. */
  predicate IsConflict(e: ApiError)
  {
    e.status == 409 && e.reason == "Conflict"
  }

  /** `get_lease`: read; only a 404 leads to creating the record, and any
      other read error, and any create error, propagates. */
  function GetLeaseSpec(st: StoreState, f: Fetch): (res: (StoreState, Outcome<Record>))
    ensures var read := ReadOp(st, f.readFault);
            && (read.Ok? ==> res == (Interleaved(st, f.rival), read))
            && (read.Raised? && read.error.status != 404 ==> res == (Interleaved(st, f.rival), read))
            && (read.Raised? && read.error.status == 404 ==>
                  res == CreateOp(Interleaved(st, f.rival), f.createFault))
    ensures res.1.Raised? && res.1.raisedBy == ReadCall ==> res.1.error.status != 404
    ensures res.1.Raised? ==> res.1.raisedBy != ReplaceCall
    ensures res.1.Ok? ==> res.0.present && res.1.value.version <= res.0.version
  {
    var read := ReadOp(st, f.readFault);
    var st1 := Interleaved(st, f.rival);
    if read.Raised? && read.error.status == 404 then CreateOp(st1, f.createFault)
    else (st1, read)
  }

  /** `update_lease()` without a lease: fetch it, update it, write it back. */
  function RenewSpec(st: StoreState, f: Fetch, id: string, now: int, fault: Option<ApiError>)
    : (res: (StoreState, Outcome<Record>))
    ensures var (st1, got) := GetLeaseSpec(st, f);
            && (got.Raised? ==> res == (st1, got))
            && (got.Ok? && fault.Some? ==> res == (st1, Raised(fault.value, ReplaceCall)))
            && (got.Ok? && fault.None? ==> (res.1.Ok? <==> got.value.version == st1.version))
            && (res.1.Raised? ==> res.0 == st1)
            && (res.1.Ok? ==>
                  && got.Ok?
                  && res.1.value == Record(Updated(got.value.spec, id, now), got.value.version + 1)
                  && res.0 == StoreState(true, res.1.value.spec, res.1.value.version))
  {
    var (st1, got) := GetLeaseSpec(st, f);
    if got.Raised? then (st1, got)
    else ReplaceOp(st1, Updated(got.value.spec, id, now), got.value.version, fault)
  }

  /** How one turn of the acquisition loop ends. */
  datatype RoundOutcome =
    | Waiting                                   // the observed claim is live
    | Conflicted                                // the replace lost a race: retry
    | Acquired(lease: Record)                   // the replace succeeded
    | Failed(error: ApiError, raisedBy: Call)   // an error propagates

  /** One turn of `acquire_lease`'s loop. */
  function RoundStep(st: StoreState, id: string, rd: Round): (res: (StoreState, RoundOutcome))
    ensures var (st1, got) := GetLeaseSpec(st, rd.fetch);
            && (got.Raised? ==> res == (st1, Failed(got.error, got.raisedBy)))
            && (res.1.Waiting? <==>
                  got.Ok? && Expiration(got.value.spec, rd.checkedAt) > rd.checkedAt)
            && (res.1.Waiting? ==> res.0 == GetLeaseSpec(st, rd.fetch).0)
            && (res.1.Acquired? || res.1.Conflicted? ==>
                  got.Ok? && Expiration(got.value.spec, rd.checkedAt) <= rd.checkedAt)
            && (res.1.Acquired? ==>
                  res.1.lease.spec == Updated(got.value.spec, id, rd.stampedAt)
                  && res.0 == StoreState(true, res.1.lease.spec, res.1.lease.version))
            && (res.1.Conflicted? ==> res.0 == GetLeaseSpec(st, rd.fetch).0)
            && (res.1.Acquired? ==>
                  got.value.version == st1.version && res.1.lease.version == st1.version + 1)
            && (got.Ok? && Expiration(got.value.spec, rd.checkedAt) <= rd.checkedAt ==>
                  && (rd.replaceFault.Some? && !IsConflict(rd.replaceFault.value) ==>
                        res == (st1, Failed(rd.replaceFault.value, ReplaceCall)))
                  && (rd.replaceFault.Some? && IsConflict(rd.replaceFault.value) ==>
                        res == (st1, Conflicted))
                  && (rd.replaceFault.None? && got.value.version == st1.version ==>
                        res.1.Acquired?)
                  && (rd.replaceFault.None? && got.value.version != st1.version ==>
                        res == (st1, Conflicted)))
    ensures res.1.Failed? && res.1.raisedBy == ReplaceCall ==> !IsConflict(res.1.error)
    ensures res.1.Failed? && res.1.raisedBy == ReadCall ==> res.1.error.status != 404
  {
    var (st1, got) := GetLeaseSpec(st, rd.fetch);
    if got.Raised? then (st1, Failed(got.error, got.raisedBy))
    else if Expiration(got.value.spec, rd.checkedAt) > rd.checkedAt then (st1, Waiting)
    else
      var (st2, w) := ReplaceOp(st1, Updated(got.value.spec, id, rd.stampedAt), got.value.version, rd.replaceFault);
      if w.Ok? then (st2, Acquired(w.value))
      else if IsConflict(w.error) then (st2, Conflicted)
      else (st2, Failed(w.error, w.raisedBy))
  }

  /** How `acquire_lease` ends: leading with the stored lease, with an error
      propagated, or still looping when the given rounds run out. */
  datatype Acquisition =
    | Leading(lease: Record)
    | Aborted(error: ApiError, raisedBy: Call)
    | StillTrying

  /** `acquire_lease` over the given rounds, one loop turn per round. */
  function AcquireRun(st: StoreState, id: string, rounds: seq<Round>): (res: (StoreState, Acquisition))
    ensures res.0.version >= st.version
    ensures res.1.Leading? ==>
              && res.1.lease.spec.holder == Some(id)
              && res.0 == StoreState(true, res.1.lease.spec, res.1.lease.version)
    decreases |rounds|
  {
    if rounds == [] then (st, StillTrying)
    else
      var (st1, o) := RoundStep(st, id, rounds[0]);
      match o
      case Waiting => AcquireRun(st1, id, rounds[1..])
      case Conflicted => AcquireRun(st1, id, rounds[1..])
      case Acquired(lease) => (st1, Leading(lease))
      case Failed(e, call) => (st1, Aborted(e, call))
  }

  /** The lease object the client hands out; `update_lease` changes its spec
      fields in place. */
  class LeaseObject {
    var holder: Option<string>
    var durationSeconds: Option<int>
    var renewTime: Option<int>
    var acquireTime: Option<int>
    var transitions: Option<int>
    /** The resource version it was read at; a replace presents it. */
    const version: nat

    function Snapshot(): Spec
      reads this
    {
      Spec(holder, durationSeconds, renewTime, acquireTime, transitions)
    }

    constructor (rec: Record)
      ensures Snapshot() == rec.spec && version == rec.version
    {
      holder, durationSeconds, renewTime := rec.spec.holder, rec.spec.durationSeconds, rec.spec.renewTime;
      acquireTime, transitions := rec.spec.acquireTime, rec.spec.transitions;
      version := rec.version;
    }

    /** The field updates of `update_lease`, made in place. */
    method Stamp(id: string, now: int)
      modifies this
      ensures Snapshot() == Updated(old(Snapshot()), id, now)
    {
      renewTime := Some(now);
      durationSeconds := Some(LeaseDuration);
      if Some(id) != holder {
        holder := Some(id);
        acquireTime := Some(now);
        if transitions.Some? && transitions.value != 0 {
          transitions := Some(transitions.value + 1);
        } else {
          transitions := Some(1);
        }
      }
    }
  }

  /** `get_lease`. */
  method GetLease(store: Store, f: Fetch) returns (r: Outcome<Record>)
    modifies store
    ensures (store.State(), r) == GetLeaseSpec(old(store.State()), f)
  {
    var read := store.Read(f.readFault);
    store.Interleave(f.rival);
    if read.Ok? {
      return read;
    }
    if read.error.status != 404 {
      return read;
    }
    r := store.Create(f.createFault);
  }

  /** `update_lease(lease)`: with no lease given, fetch one first (using `f`);
      update it in place, then replace the stored record with it. */
  method UpdateLease(store: Store, lease: LeaseObject?, f: Fetch, id: string, now: int,
                     fault: Option<ApiError>)
    returns (r: Outcome<Record>)
    modifies store, lease
    ensures lease != null ==>
              && lease.Snapshot() == Updated(old(lease.Snapshot()), id, now)
              && (store.State(), r) == ReplaceOp(old(store.State()), lease.Snapshot(), lease.version, fault)
    ensures lease == null ==> (store.State(), r) == RenewSpec(old(store.State()), f, id, now, fault)
  {
    var l := lease;
    if l == null {
      var got := GetLease(store, f);
      if got.Raised? {
        return got;
      }
      l := new LeaseObject(got.value);
    }
    l.Stamp(id, now);
    r := store.Replace(l.Snapshot(), l.version, fault);
  }

  /** `acquire_lease`: loop until the lease is won or an error propagates.
      The script loops forever; here the loop runs one turn per given round. */
  method AcquireLease(store: Store, id: string, rounds: seq<Round>) returns (a: Acquisition)
    modifies store
    ensures (store.State(), a) == AcquireRun(old(store.State()), id, rounds)
  {
    var i := 0;
    while i < |rounds|
      invariant 0 <= i <= |rounds|
      invariant AcquireRun(old(store.State()), id, rounds) == AcquireRun(store.State(), id, rounds[i..])
    {
      var rd := rounds[i];
      ghost var before := store.State();
      assert rounds[i..][0] == rd && rounds[i..][1..] == rounds[i + 1..];
      var got := GetLease(store, rd.fetch);
      if got.Raised? {
        return Aborted(got.error, got.raisedBy);
      }
      var lease := new LeaseObject(got.value);
      var expiration := Expiration(lease.Snapshot(), rd.checkedAt);
      if expiration > rd.checkedAt {
        // The claim is live: the script sleeps until `expiration` and fetches again.
      } else {
        // The fetch argument is unused: the lease is given.
        var w := UpdateLease(store, lease, rd.fetch, id, rd.stampedAt, rd.replaceFault);
        if w.Ok? {
          return Leading(w.value);
        }
        if !IsConflict(w.error) {
          return Aborted(w.error, w.raisedBy);
        }
      }
      i := i + 1;
    }
    a := StillTrying;
  }

  /** One turn of the leadership loop: compute when to renew from the last
      written lease, then `update_lease()`, which fetches the lease afresh.
      Nothing here catches a conflict. */
  method RenewOnce(store: Store, id: string, current: Record, f: Fetch, now: int,
                   fault: Option<ApiError>)
    returns (due: int, r: Outcome<Record>)
    requires current.spec.renewTime.Some?
    modifies store
    ensures due == RenewDue(current.spec.renewTime.value)
    ensures (store.State(), r) == RenewSpec(old(store.State()), f, id, now, fault)
  {
    due := RenewDue(current.spec.renewTime.value);
    // The script sleeps until `due` here.
    r := UpdateLease(store, null, f, id, now, fault);
  }
}
