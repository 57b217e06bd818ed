/** The record store behind the election: one lease record with a version
    counter standing for Kubernetes' resource version. Reads, create-if-absent
    and replace-if-unchanged are given first as functions on the store's state
    and then as the methods of a `Store` object that are proved to follow them.
    An infrastructure failure (network, authorisation, server error) that the
    environment injects into a call makes that call raise without touching the
    record. */
module LeaseStore {
  import opened LeaseSpec

  /** An `ApiException`: HTTP status and HTTP reason phrase. */
  datatype ApiError = ApiError(status: int, reason: string)

  const NotFound: ApiError := ApiError(404, "Not Found")
  /** Raised for a stale version on replace and for a create that finds the
      record present: both are HTTP 409, whose reason phrase is "Conflict". */
  const Conflict: ApiError := ApiError(409, "Conflict")

  /** The store call an error was raised by. */
  datatype Call = ReadCall | CreateCall | ReplaceCall

  datatype Outcome<T> = Ok(value: T) | Raised(error: ApiError, raisedBy: Call)

  /** A lease as the client receives it: its spec and the version it was read at. */
  datatype Record = Record(spec: Spec, version: nat)

  /** Whether the record exists, its spec and its current version. */
  datatype StoreState = StoreState(present: bool, spec: Spec, version: nat)

  /** `read_namespaced_lease`. */
  function ReadOp(st: StoreState, fault: Option<ApiError>): (r: Outcome<Record>)
    ensures r.Ok? <==> fault.None? && st.present
    ensures r.Ok? ==> r.value == Record(st.spec, st.version)
    ensures r.Raised? ==> r.raisedBy == ReadCall
    ensures fault.None? && !st.present ==> r.error == NotFound
    ensures fault.Some? ==> r.error == fault.value
  {
    if fault.Some? then Raised(fault.value, ReadCall)
    else if !st.present then Raised(NotFound, ReadCall)
    else Ok(Record(st.spec, st.version))
  }

  /** `create_namespaced_lease` with metadata only. */
  function CreateOp(st: StoreState, fault: Option<ApiError>): (res: (StoreState, Outcome<Record>))
    ensures res.1.Ok? <==> fault.None? && !st.present
    ensures res.1.Ok? ==>
              && res.0 == StoreState(true, EmptySpec, st.version + 1)
              && res.1.value == Record(EmptySpec, st.version + 1)
    ensures res.1.Raised? ==> res.0 == st && res.1.raisedBy == CreateCall
    ensures fault.None? && st.present ==> res.1.error == Conflict
    ensures fault.Some? ==> res.1.error == fault.value
  {
    if fault.Some? then (st, Raised(fault.value, CreateCall))
    else if st.present then (st, Raised(Conflict, CreateCall))
    else
      var created := StoreState(true, EmptySpec, st.version + 1);
      (created, Ok(Record(created.spec, created.version)))
  }

  /** `replace_namespaced_lease`: writes `spec` only if `presented` is the
      current version, and answers with the stored lease. */
  function ReplaceOp(st: StoreState, spec: Spec, presented: nat, fault: Option<ApiError>)
    : (res: (StoreState, Outcome<Record>))
    ensures res.1.Ok? <==> fault.None? && st.present && presented == st.version
    ensures res.1.Ok? ==>
              && res.0 == StoreState(true, spec, st.version + 1)
              && res.1.value == Record(spec, st.version + 1)
    ensures res.1.Raised? ==> res.0 == st && res.1.raisedBy == ReplaceCall
    ensures fault.None? && st.present && presented != st.version ==> res.1.error == Conflict
    ensures fault.None? && !st.present ==> res.1.error == NotFound
    ensures fault.Some? ==> res.1.error == fault.value
  {
    if fault.Some? then (st, Raised(fault.value, ReplaceCall))
    else if !st.present then (st, Raised(NotFound, ReplaceCall))
    else if presented != st.version then (st, Raised(Conflict, ReplaceCall))
    else
      var replaced := StoreState(true, spec, st.version + 1);
      (replaced, Ok(Record(replaced.spec, replaced.version)))
  }

  /** A write by another process, if any, that the store linearizes here. */
  function Interleaved(st: StoreState, rival: Option<Spec>): (st': StoreState)
    ensures rival.None? ==> st' == st
    ensures rival.Some? ==> st'.present && st'.spec == rival.value && st'.version > st.version
  {
    if rival.Some? then StoreState(true, rival.value, st.version + 1) else st
  }

  /** The store as an object whose fields its calls update in place. */
  class Store {
    var present: bool
    var spec: Spec
    var version: nat

    function State(): StoreState
      reads this
    {
      StoreState(present, spec, version)
    }

    /** A store in which the lease does not exist yet. */
    constructor ()
      ensures State() == StoreState(false, EmptySpec, 0)
    {
      present, spec, version := false, EmptySpec, 0;
    }

    method Read(fault: Option<ApiError>) returns (r: Outcome<Record>)
      ensures r == ReadOp(State(), fault)
    {
      if fault.Some? {
        r := Raised(fault.value, ReadCall);
      } else if !present {
        r := Raised(NotFound, ReadCall);
      } else {
        r := Ok(Record(spec, version));
      }
    }

    method Create(fault: Option<ApiError>) returns (r: Outcome<Record>)
      modifies this
      ensures (State(), r) == CreateOp(old(State()), fault)
    {
      if fault.Some? {
        r := Raised(fault.value, CreateCall);
      } else if present {
        r := Raised(Conflict, CreateCall);
      } else {
        present, spec, version := true, EmptySpec, version + 1;
        r := Ok(Record(spec, version));
      }
    }

    method Replace(s: Spec, presented: nat, fault: Option<ApiError>) returns (r: Outcome<Record>)
      modifies this
      ensures (State(), r) == ReplaceOp(old(State()), s, presented, fault)
    {
      if fault.Some? {
        r := Raised(fault.value, ReplaceCall);
      } else if !present {
        r := Raised(NotFound, ReplaceCall);
      } else if presented != version {
        r := Raised(Conflict, ReplaceCall);
      } else {
        spec, version := s, version + 1;
        r := Ok(Record(spec, version));
      }
    }

    /** Lets another process's write, if any, land at this point. */
    method Interleave(rival: Option<Spec>)
      modifies this
      ensures State() == Interleaved(old(State()), rival)
    {
      if rival.Some? {
        present, spec, version := true, rival.value, version + 1;
      }
    }
  }
}
