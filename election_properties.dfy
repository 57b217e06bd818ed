/** What the acquisition loop and the renewal step guarantee, and what they
    do not: proved over the functions the election methods follow. */
module ElectionProperties {
  import opened LeaseSpec
  import opened LeaseStore
  import opened Election

  /** A round with no failure injected anywhere and no rival write. */
  predicate Quiet(rd: Round)
  {
    rd.fetch == QuietFetch && rd.replaceFault.None?
  }

  /** A won acquisition leaves this process as holder with the configured
      duration and a renew time stamped in one of the rounds, and the store
      holds exactly the lease returned. */
  lemma {:induction false} AcquireLeadsAsSelf(st: StoreState, id: string, rounds: seq<Round>)
    requires AcquireRun(st, id, rounds).1.Leading?
    ensures var (final, a) := AcquireRun(st, id, rounds);
            && a.lease.spec.holder == Some(id)
            && a.lease.spec.durationSeconds == Some(LeaseDuration)
            && (exists k :: 0 <= k < |rounds| && a.lease.spec.renewTime == Some(rounds[k].stampedAt))
            && final == StoreState(true, a.lease.spec, a.lease.version)
    decreases |rounds|
  {
    var (st1, o) := RoundStep(st, id, rounds[0]);
    if o.Acquired? {
      assert o.lease.spec.renewTime == Some(rounds[0].stampedAt);
    } else {
      AcquireLeadsAsSelf(st1, id, rounds[1..]);
      var k :| 0 <= k < |rounds[1..]|
               && AcquireRun(st, id, rounds).1.lease.spec.renewTime == Some(rounds[1..][k].stampedAt);
      assert rounds[1..][k] == rounds[k + 1];
    }
  }

  /** The loop gives up only on an error it may not swallow: never on a 409
      Conflict from the replace, never on a 404 from the read. */
  lemma {:induction false} AcquireAbortsOnlyOnFatal(st: StoreState, id: string, rounds: seq<Round>)
    ensures var a := AcquireRun(st, id, rounds).1;
            a.Aborted? ==>
              && (a.raisedBy == ReplaceCall ==> !IsConflict(a.error))
              && (a.raisedBy == ReadCall ==> a.error.status != 404)
    decreases |rounds|
  {
    if rounds != [] {
      var (st1, o) := RoundStep(st, id, rounds[0]);
      if o.Waiting? || o.Conflicted? {
        AcquireAbortsOnlyOnFatal(st1, id, rounds[1..]);
      }
    }
  }

  /** While the stored renew time is T and nobody else writes, no round whose
      clock reads before T + LEASE_DURATION writes anything: the loop only
      waits and fetches again, and the store is left as it was. This holds
      even when the recorded holder is this process itself. */
  lemma {:induction false} LiveLeaseBlocksAcquisition(st: StoreState, id: string, rounds: seq<Round>, t: int)
    requires st.present && st.spec.renewTime == Some(t)
    requires forall k :: 0 <= k < |rounds| ==>
               rounds[k].fetch.readFault.None? && rounds[k].fetch.rival.None?
               && rounds[k].checkedAt < t + LeaseDurationMs
    ensures AcquireRun(st, id, rounds) == (st, StillTrying)
    decreases |rounds|
  {
    if rounds != [] {
      var rd := rounds[0];
      assert rd.fetch.readFault.None? && rd.fetch.rival.None? && rd.checkedAt < t + LeaseDurationMs;
      assert GetLeaseSpec(st, rd.fetch) == (st, Ok(Record(st.spec, st.version)));
      assert RoundStep(st, id, rd) == (st, Waiting);
      forall k | 0 <= k < |rounds[1..]|
        ensures rounds[1..][k].fetch.readFault.None? && rounds[1..][k].fetch.rival.None?
                && rounds[1..][k].checkedAt < t + LeaseDurationMs
      {
        assert rounds[1..][k] == rounds[k + 1];
      }
      LiveLeaseBlocksAcquisition(st, id, rounds[1..], t);
    }
  }

  /** Once the clock reads T + LEASE_DURATION or later, a quiet round claims
      the lease: the acquisition is attempted and wins. */
  lemma ExpiredLeaseIsClaimed(st: StoreState, id: string, rd: Round, rest: seq<Round>, t: int)
    requires st.present && st.spec.renewTime == Some(t)
    requires Quiet(rd) && rd.checkedAt >= t + LeaseDurationMs
    ensures var u := Updated(st.spec, id, rd.stampedAt);
            AcquireRun(st, id, [rd] + rest)
            == (StoreState(true, u, st.version + 1), Leading(Record(u, st.version + 1)))
  {
  }

  /** Against an empty store one quiet round creates the record and claims
      it: this process holds it, one transition is counted, and the acquire
      time equals the renew time. */
  lemma FreshAcquisition(version: nat, id: string, rd: Round, rest: seq<Round>)
    requires Quiet(rd)
    ensures var (final, a) := AcquireRun(StoreState(false, EmptySpec, version), id, [rd] + rest);
            && a.Leading?
            && a.lease.spec.holder == Some(id)
            && a.lease.spec.transitions == Some(1)
            && a.lease.spec.acquireTime == a.lease.spec.renewTime == Some(rd.stampedAt)
            && final == StoreState(true, a.lease.spec, version + 2)
  {
  }

  /** A rival's write between this process's read and its replace makes the
      replace conflict; the loop goes on with the next round, and the store
      keeps the rival's lease untouched. */
  lemma ConflictRetries(st: StoreState, id: string, rd: Round, rest: seq<Round>, rival: Spec)
    requires st.present && Expiration(st.spec, rd.checkedAt) <= rd.checkedAt
    requires rd.fetch == Fetch(None, Some(rival), None) && rd.replaceFault.None?
    ensures RoundStep(st, id, rd) == (StoreState(true, rival, st.version + 1), Conflicted)
    ensures AcquireRun(st, id, [rd] + rest) == AcquireRun(StoreState(true, rival, st.version + 1), id, rest)
  {
  }

  /** A create that loses the race to a rival is not caught: its 409 ends the
      acquisition loop, although the lease now exists. */
  lemma CreateRaceAborts(version: nat, id: string, rd: Round, rest: seq<Round>, rival: Spec)
    requires rd.fetch == Fetch(None, Some(rival), None)
    ensures AcquireRun(StoreState(false, EmptySpec, version), id, [rd] + rest)
            == (StoreState(true, rival, version + 1), Aborted(Conflict, CreateCall))
  {
  }

  /** A quiet renewal by the current holder keeps holder, acquire time and
      transition count and moves only the renew time (and duration). */
  lemma HolderRenewalKeepsClaim(st: StoreState, id: string, now: int)
    requires st.present && st.spec.holder == Some(id)
    ensures var (final, r) := RenewSpec(st, QuietFetch, id, now, None);
            && r.Ok?
            && r.value.spec == st.spec.(renewTime := Some(now), durationSeconds := Some(LeaseDuration))
            && final == StoreState(true, r.value.spec, st.version + 1)
  {
  }

  /** A rival's write during a renewal makes its replace conflict, and the
      renewal step raises that 409 instead of falling back to acquisition;
      the rival's lease stays in the store. */
  lemma RenewalConflictRaised(st: StoreState, id: string, now: int, rival: Spec)
    requires st.present
    ensures RenewSpec(st, Fetch(None, Some(rival), None), id, now, None)
            == (StoreState(true, rival, st.version + 1), Raised(Conflict, ReplaceCall))
  {
  }

  /** A fetch error ends the acquisition loop at once, and the error is
      the one the read or the create raised. */
  lemma FetchFailureAborts(st: StoreState, id: string, rd: Round, rest: seq<Round>)
    requires GetLeaseSpec(st, rd.fetch).1.Raised?
    ensures var (st1, got) := GetLeaseSpec(st, rd.fetch);
            AcquireRun(st, id, [rd] + rest) == (st1, Aborted(got.error, got.raisedBy))
  {
  }

  /** When the fetched lease has expired and the replace fails, a 409
      Conflict sends the loop to its next turn and any other error ends it
      unchanged; either way the replace writes nothing. */
  lemma ReplaceFailureHandling(st: StoreState, id: string, rd: Round, rest: seq<Round>, e: ApiError)
    requires GetLeaseSpec(st, rd.fetch).1.Ok?
    requires Expiration(GetLeaseSpec(st, rd.fetch).1.value.spec, rd.checkedAt) <= rd.checkedAt
    requires rd.replaceFault == Some(e)
    ensures var st1 := GetLeaseSpec(st, rd.fetch).0;
            && (IsConflict(e) ==> AcquireRun(st, id, [rd] + rest) == AcquireRun(st1, id, rest))
            && (!IsConflict(e) ==> AcquireRun(st, id, [rd] + rest) == (st1, Aborted(e, ReplaceCall)))
  {
  }

  /** The renewal fetches the lease afresh and stamps it whoever holds it:
      a renewal that comes after another process has legitimately taken the
      lease over takes it back without any conflict, while the other
      process's claim is still live. */
  lemma RenewalTakesOverLiveLease(st: StoreState, id: string, other: string, now: int)
    requires st.present && st.spec.holder == Some(other) && other != id
    requires st.spec.renewTime.Some? && now < st.spec.renewTime.value + LeaseDurationMs
    ensures Expiration(st.spec, now) > now
    ensures var (final, r) := RenewSpec(st, QuietFetch, id, now, None);
            && r.Ok?
            && r.value.spec.holder == Some(id)
            && TransitionCount(r.value.spec.transitions) == TransitionCount(st.spec.transitions) + 1
            && final == StoreState(true, r.value.spec, st.version + 1)
  {
  }
}
