/** `DocumentAsyncRuntime` (src/core/document-async-runtime.ts): one bounded attempt at a
    provider-owned document task, cancellation, source revocation and cleanup. Answers
    of the ports are arguments; None is a port that throws. */
module DocumentAsyncRuntime {
  import opened Basics
  import opened DurableStore
  import Fx = Effects
  import opened Effects
  import opened DocumentJobs
  import opened DocumentJobRepository

  datatype Recovered = Recovered(refId: string, ready: bool)

  /** What cleanup meets: the recovered reservation, if any, and whether revoking left work. */
  datatype CleanupAnswers = CleanupAnswers(recovered: Option<Option<Recovered>>, cleanupPending: Option<bool>)

  datatype Ports = Ports(
    inspected: Option<Snapshot>, bytesMatch: bool, created: Option<string>, poll: Option<PollAnswer>,
    inspectedAgain: Option<Snapshot>, stored: Option<string>, written: Option<string>,
    recovered: Option<Option<Recovered>>, cancelled: Option<bool>, innerCleanup: CleanupAnswers)

  datatype Attempt = Idle | Waiting | MarkedFailed | MarkedCompleted(refId: string) | LostTheRace

  /** How a cleanup attempt ended. */
  datatype CleanupDone =
    | Unfinished
    | StillWanted(seenAs: Dispatch)      // the job is live, or completed and its source not revoked
    | AlreadyDone(seenAs: Dispatch)
    | NothingReserved(seenAs: Dispatch)
    | StillPending(seenAs: Dispatch, ref: string)
    | Finished(seenAs: Dispatch, ref: string)

  predicate CleanupHolds(s: Slot, answers: CleanupAnswers, done: CleanupDone) {
    match done
    case Unfinished => false
    case StillWanted(seen) =>
      && s.job.Some? && DispatchSeen(s, seen)
      && (!Terminal(s.job.value.value.status)
          || (s.job.value.value.status == Completed && seen.sourceRevocation == NotRevoked))
    case AlreadyDone(seen) => seen.resultCleanupDone && DispatchSeen(s, seen)
    case NothingReserved(seen) =>
      seen.resultArtifactRef.None? && DispatchSeen(s, seen) && answers.recovered == Some(None)
    case StillPending(seen, ref) => answers.cleanupPending == Some(true) && ToRevoke(seen, answers, ref)
    case Finished(seen, ref) =>
      answers.cleanupPending == Some(false) && ToRevoke(seen, answers, ref) && s.dispatch.Some?
      && (s.dispatch.value.value.resultCleanupDone <==> s.dispatch.value.value.resultArtifactRef == Some(ref))
  }

  /** The result to be revoked: the one on record when it was read, else the one reserved. */
  predicate ToRevoke(seen: Dispatch, answers: CleanupAnswers, ref: string) {
    && !seen.resultCleanupDone
    && (seen.resultArtifactRef == Some(ref)
        || (seen.resultArtifactRef.None? && answers.recovered.Some? && answers.recovered.value.Some?
            && answers.recovered.value.value.refId == ref))
  }

  predicate NothingToCancel(d: Dispatch) { !d.upstreamRequested || d.providerTaskId.None? || d.upstreamAcknowledged }

  /** A cancellation was carried out: acknowledged on record, or refused by the provider; or
      there was nothing to carry out. */
  ghost predicate CancelHolds(id: string, s: Slot, ports: Ports, done: Option<bool>) {
    match done
    case Some(true) => AcknowledgedOnRecord(id, s)
    case Some(false) => ports.cancelled == Some(false)
    case None => exists d :: DispatchSeen(s, d) && NothingToCancel(d)
  }

  /** The acknowledgement is on the dispatch record, and a provider call gave it. */
  predicate AcknowledgedOnRecord(id: string, s: Slot) {
    && s.dispatch.Some? && s.dispatch.value.value.upstreamAcknowledged
    && AsyncFx(id, ProviderTaskCancel) in s.cells && s.cells[AsyncFx(id, ProviderTaskCancel)].acks > 0
  }

  lemma AcknowledgedIsSettled(id: string, s: Slot)
    requires SlotInv(id, s) && s.dispatch.Some? && s.dispatch.value.value.upstreamAcknowledged
    ensures AcknowledgedOnRecord(id, s)
  {
    CellAt(id, s, AsyncFx(id, ProviderTaskCancel));
  }

  // ------------------------------------------------------------------ facts that survive interference

  predicate Justified(id: string, s: Slot, w: DispatchWrite) { s.job.Some? && CanWriteDispatch(id, s, w) }

  lemma JustifiedStays(me: Pid, id: string, s: Slot, s': Slot, w: DispatchWrite)
    requires SlotRely(me, s, s') && Justified(id, s, w)
    ensures Justified(id, s', w)
  {
    EntitlementsStay(me, s, s', AsyncFx(id, ArtifactWrite), 0);
    BegunStays(me, s, s', AsyncFx(id, ArtifactWrite));
    EntitlementsStay(me, s, s', AsyncFx(id, ProviderTaskCancel), 0);
  }

  predicate DispatchSeen(s: Slot, d: Dispatch) { s.dispatch.Some? && Climbs(d, s.dispatch.value.value) }

  lemma DispatchSeenStays(me: Pid, s: Slot, s': Slot, d: Dispatch)
    requires SlotRely(me, s, s') && DispatchSeen(s, d)
    ensures DispatchSeen(s', d)
  {
  }

  lemma ReadIsSeen(me: Pid, s: Slot, s': Slot)
    requires SlotRely(me, s, s') && s.dispatch.Some?
    ensures DispatchSeen(s', s.dispatch.value.value)
  {
  }

  lemma UnmovedDispatch(me: Pid, s: Slot, s': Slot)
    requires SlotRely(me, s, s')
    ensures s.job.Some? ==> s'.job.Some?
    ensures s.dispatch.Some? ==>
              s'.dispatch.Some?
                && (s'.dispatch.value.revision == s.dispatch.value.revision ==> s'.dispatch == s.dispatch)
  {
  }

  /** `me` has finished the call behind the effect and has not yet recorded how. */
  predicate CallMade(me: Pid, s: Slot, fx: EffectId, revision: nat) {
    && CallReturned(me, s, fx, revision) && s.cells[fx].begun > 0
    && (s.cells[fx].record.revision == revision ==> !s.cells[fx].armed)
  }

  predicate NotSettledAt(s: Slot, fx: EffectId, revision: nat) {
    && fx in s.cells && s.cells[fx].record.revision >= revision
    && (s.cells[fx].record.revision == revision ==> s.cells[fx].Status() != Succeeded)
  }

  lemma ProgressStays(me: Pid, s: Slot, s': Slot, fx: EffectId, revision: nat)
    requires SlotRely(me, s, s')
    ensures CallMade(me, s, fx, revision) ==> CallMade(me, s', fx, revision)
    ensures NotSettledAt(s, fx, revision) ==> NotSettledAt(s', fx, revision)
    ensures fx in s.cells ==>
              fx in s'.cells && s'.cells[fx].acks >= s.cells[fx].acks && s'.cells[fx].begun >= s.cells[fx].begun
  {
    EntitlementsStay(me, s, s', fx, revision);
    BegunStays(me, s, s', fx);
    assert Fx.Rely(me, At(s.cells, fx), At(s'.cells, fx));
  }

  lemma ArmedIsEnded(me: Pid, s: Slot, fx: EffectId, revision: nat)
    requires SlotInv(fx.jobId, s) && HoldsArmed(me, s, fx, revision)
    ensures CallReturned(me, s, fx, revision)
  {
    CellAt(fx.jobId, s, fx);
  }

  /** What the runtime returns from an effect is what the journal holds. */
  predicate Delivered(s: Slot, fx: EffectId, receipt: string) {
    if fx.kind == ProviderTaskCancel then
      receipt == "acknowledged" ==> fx in s.cells && Settled(s.cells[fx])
    else Has(s, fx) && s.cells[fx].Effect().receipt == Some(Note(receipt))
  }

  lemma DeliveredStays(id: string, s: Slot, s': Slot, fx: EffectId, receipt: string)
    requires SlotInv(id, s) && Grows(s, s') && Delivered(s, fx, receipt)
    ensures Delivered(s', fx, receipt)
  {
    if fx in s.cells { CellAt(id, s, fx); }
  }

  lemma AcknowledgementJustified(id: string, s: Slot, receipt: string)
    requires s.job.Some? && Delivered(s, AsyncFx(id, ProviderTaskCancel), receipt)
    ensures Justified(id, s, Acknowledge(receipt == "acknowledged"))
  {
  }

  /** The identifier the journal holds for the submission is the one the provider gave. */
  lemma DeliveredSubmission(id: string, s: Slot, receipt: string)
    requires SlotInv(id, s) && Delivered(s, AsyncFx(id, ProviderTaskCreate), receipt)
    ensures s.job.Some? && s.submitted == Some(receipt)
  {
  }

  class DocumentAsyncRuntime {
    const repository: DurableDocumentJobRepository
    const providerId: string

    constructor(repository: DurableDocumentJobRepository, providerId: string)
      ensures this.repository == repository && this.providerId == providerId
    {
      this.repository := repository;
      this.providerId := providerId;
    }

    // ---------------------------------------------------------------- the dispatch record

    method Read(me: Pid, id: string) returns (r: Option<Record<Dispatch>>)
      requires repository.Valid()
      modifies repository
      ensures repository.Valid() && SlotInv(id, repository.Look(id))
      ensures SlotRely(me, old(repository.Look(id)), repository.Look(id))
      ensures r == repository.Look(id).dispatch
    {
      repository.Interfere(me, id);
      r := repository.Look(id).dispatch;
    }

    /** Reads, applies the mutation to what it read, swaps, and starts again on conflict. */
    method Update(me: Pid, id: string, w: DispatchWrite, rounds: nat) returns (r: Reply<Dispatch>)
      requires repository.Valid() && Justified(id, repository.Look(id), w)
      modifies repository
      ensures repository.Valid() && SlotInv(id, repository.Look(id))
      ensures SlotRely(me, old(repository.Look(id)), repository.Look(id)) && Justified(id, repository.Look(id), w)
      ensures r.Ok? ==>
                repository.Look(id).dispatch.Some? && repository.Look(id).dispatch.value.value == r.value
                  && Recorded(w, r.value)
    {
      hide SlotInv, Evidence, SlotRely, Justified, Grows;
      repository.LookInv(id);
      SlotRelyRefl(me, repository.Look(id));
      for round := 0 to rounds
        invariant repository.Valid() && SlotInv(id, repository.Look(id))
        invariant SlotRely(me, old(repository.Look(id)), repository.Look(id)) && Justified(id, repository.Look(id), w)
      {
        ghost var s0 := repository.Look(id);
        var record := Read(me, id);
        ghost var s1 := repository.Look(id);
        RelyThenRely(me, id, old(repository.Look(id)), s0, s1);
        JustifiedStays(me, id, s0, s1, w);
        if record.None? || repository.aborted { return Refused; }
        var next := AfterDispatchWrite(record.value.value, w);
        repository.Interfere(me, id);
        ghost var s2 := repository.Look(id);
        RelyThenRely(me, id, old(repository.Look(id)), s1, s2);
        JustifiedStays(me, id, s1, s2, w);
        UnmovedDispatch(me, s1, s2);
        JustifiedCan(id, s2, w);
        var result := repository.CasDispatch(me, id, record.value.revision, next, repository.clock, w);
        RelyThenWrite(me, id, old(repository.Look(id)), s2, repository.Look(id));
        WriteIsRely(me, s2, repository.Look(id));
        JustifiedStays(me, id, s2, repository.Look(id), w);
        if result.Updated? { return Ok(next); }
        if result.Missing? { return Refused; }
      }
      r := Looping;
    }

    /** Expires the job once its execution budget is gone. */
    method Expire(me: Pid, id: string, caller: Caller, state: Dispatch, rounds: nat) returns (r: Reply<Record<Job>>)
      requires repository.Valid()
      modifies repository
      ensures repository.Valid() && SlotInv(id, repository.Look(id))
      ensures SlotRely(me, old(repository.Look(id)), repository.Look(id))
      ensures r.Ok? ==>
                && repository.Look(id).job == Some(r.value)
                && (Terminal(r.value.value.status) || repository.clock < state.budgetEndsAt)
    {
      hide SlotInv, Evidence, SlotRely;
      repository.LookInv(id);
      SlotRelyRefl(me, repository.Look(id));
      for round := 0 to rounds
        invariant repository.Valid() && SlotInv(id, repository.Look(id))
        invariant SlotRely(me, old(repository.Look(id)), repository.Look(id))
      {
        ghost var s0 := repository.Look(id);
        var current := repository.Get(me, id, caller, repository.clock, rounds);
        ghost var s1 := repository.Look(id);
        RelyThenRely(me, id, old(repository.Look(id)), s0, s1);
        if !current.Ok? { return current; }
        if Terminal(current.value.value.status) || repository.clock < state.budgetEndsAt { return current; }
        var expired := repository.Transition(me, id, caller, current.value.revision, Expired, repository.clock, None,
            None, rounds);
        RelyThenRely(me, id, old(repository.Look(id)), s1, repository.Look(id));
        if !expired.Ok? { return Refused; }
        if expired.value.Moved? { return Ok(expired.value.value); }
      }
      r := Looping;
    }

    /** True means: bound to this provider, within budget and expiry, job live, and the
        dispatch record it read, at `at`, was not cancelled. */
    method AssertActive(me: Pid, id: string, caller: Caller, rounds: nat) returns (active: bool, ghost at: Slot)
      requires repository.Valid()
      modifies repository
      ensures repository.Valid() && SlotInv(id, repository.Look(id))
      ensures SlotRely(me, old(repository.Look(id)), repository.Look(id))
      ensures active ==>
                var s := repository.Look(id);
                && s.job.Some? && !Terminal(s.job.value.value.status) && repository.clock < s.job.value.value.expiresAt
                && s.dispatch.Some? && s.dispatch.value.value.providerId == providerId
                && repository.clock < s.dispatch.value.value.budgetEndsAt
                && SlotRely(me, old(repository.Look(id)), at) && SlotRely(me, at, s)
                && at.dispatch.Some? && !at.dispatch.value.value.dispatchCancelled
    {
      hide SlotInv, Evidence, SlotRely;
      ghost var s0 := repository.Look(id);
      repository.LookInv(id);
      var state := Read(me, id);
      ghost var s1 := repository.Look(id);
      at := s1;
      active := false;
      if state.None? { return; }
      var job := Expire(me, id, caller, state.value.value, rounds);
      ghost var s2 := repository.Look(id);
      RelyThenRely(me, id, s0, s1, s2);
      if !job.Ok? { return; }
      DispatchSeenStays(me, s1, s2, state.value.value);
      if state.value.value.providerId != providerId { return; }
      if repository.clock >= state.value.value.budgetEndsAt || repository.clock >= job.value.value.expiresAt { return; }
      active := !state.value.value.dispatchCancelled && !Terminal(job.value.value.status);
    }

    // ---------------------------------------------------------------- journalled operations

    /** The claim, or a retried cancellation; otherwise the existing receipt, or an
        effect whose outcome is unresolved. */
    method ClaimOrRetry(me: Pid, id: string, kind: EffectKind)
      returns (granted: bool, receipt: Option<Receipt>, revision: nat, threw: bool)
      requires repository.Valid() && SlotInv(id, repository.Look(id)) && repository.Look(id).job.Some?
      modifies repository
      ensures repository.Valid() && SlotInv(id, repository.Look(id))
              && Grows(old(repository.Look(id)), repository.Look(id))
      ensures repository.Look(id).job.Some?
      ensures var fx := AsyncFx(id, kind); var s := repository.Look(id);
              !threw ==>
                && (granted ==> HoldsClaim(me, s, fx, revision))
                && (!granted && receipt.Some? ==>
                      Has(s, fx) && s.cells[fx].Effect().receipt == receipt
                        && (kind == ProviderTaskCancel ==> receipt == Some(Note("acknowledged"))))
                && (!granted && receipt.None? ==> kind != ProviderTaskCancel && NotSettledAt(s, fx, revision))
    {
      hide SlotInv, Evidence, SlotRely;
      var fx := AsyncFx(id, kind);
      granted, receipt, revision, threw := false, None, 0, false;
      ghost var s0 := repository.Look(id);
      repository.Interfere(me, id);
      ghost var s1 := repository.Look(id);
      GrowsOf(me, s0, s1);
      var claim := repository.ClaimEffect(me, id, fx, repository.clock);
      GrowsTransitive(s0, s1, repository.Look(id));
      if claim.ClaimGranted? {
        granted, revision := true, claim.revision;
        return;
      }
      CellAt(id, repository.Look(id), fx);
      if kind == ProviderTaskCancel && !(claim.effect.status == Succeeded
              && claim.effect.receipt == Some(Note("acknowledged"))) {
        ghost var s2 := repository.Look(id);
        repository.Interfere(me, id);
        ghost var s3 := repository.Look(id);
        GrowsOf(me, s2, s3);
        GrowsTransitive(s0, s2, s3);
        BegunStays(me, s2, s3, fx);
        granted := repository.RetryEffect(me, id, fx, claim.revision, repository.clock);
        GrowsTransitive(s0, s3, repository.Look(id));
        revision := claim.revision + 1;
        threw := !granted;
        return;
      }
      receipt := if claim.effect.status == Succeeded then claim.effect.receipt else None;
      revision := claim.revision;
    }

    /** Another attempt's claim: succeed only on durable proof of what its call returned. */
    method ResumeFromEvidence(me: Pid, id: string, kind: EffectKind, caller: Caller, revision: nat,
            recovered: Option<Option<Recovered>>, rounds: nat)
      returns (r: Option<string>)
      requires repository.Valid() && SlotInv(id, repository.Look(id)) && repository.Look(id).job.Some?
      requires (kind == ProviderTaskCreate || kind == ArtifactWrite)
              && NotSettledAt(repository.Look(id), AsyncFx(id, kind), revision)
      modifies repository
      ensures repository.Valid() && SlotInv(id, repository.Look(id))
              && Grows(old(repository.Look(id)), repository.Look(id))
      ensures r.Some? ==> Delivered(repository.Look(id), AsyncFx(id, kind), r.value)
    {
      hide SlotInv, Evidence, SlotRely, Grows, NotSettledAt, Proof, RecordedIn, Delivered, DocumentJobs.Enabled,
           DocumentJobs.Next;
      var fx := AsyncFx(id, kind);
      ghost var s0 := repository.Look(id);
      GrowsRefl(s0);
      var state, cleaned, ok := RecordedAnswer(me, id, kind, recovered, rounds);
      ghost var s1 := repository.Look(id);
      ProgressStays(me, s0, s1, fx, revision);
      GrowsOf(me, s0, s1);
      if !ok || state.None? || (kind == ArtifactWrite && cleaned) { return None; }
      var active, _ := AssertActive(me, id, caller, rounds);
      ghost var s2 := repository.Look(id);
      ProgressStays(me, s1, s2, fx, revision);
      GrowsOf(me, s1, s2);
      GrowsTransitive(s0, s1, s2);
      if !active || repository.aborted { return None; }
      AnswerProvesCall(me, id, kind, s1, s2, state.value);
      repository.Interfere(me, id);
      ghost var s3 := repository.Look(id);
      ProgressStays(me, s2, s3, fx, revision);
      ProofStays(me, id, kind, s2, s3, state.value);
      GrowsOf(me, s2, s3);
      GrowsTransitive(s0, s2, s3);
      ProofEnables(me, id, s3, kind, revision, state.value, repository.clock);
      var written := repository.TransitionEffect(me, id, fx, revision, Resume(Note(state.value)), repository.clock);
      GrowsTransitive(s0, s3, repository.Look(id));
      r := if written then state else None;
    }

    /** The identifier or reference already on the dispatch record, or, for a result, the
        one the artifact port says is ready. */
    method RecordedAnswer(me: Pid, id: string, kind: EffectKind, recovered: Option<Option<Recovered>>, rounds: nat)
      returns (answer: Option<string>, cleaned: bool, ok: bool)
      requires repository.Valid() && SlotInv(id, repository.Look(id)) && repository.Look(id).job.Some?
      modifies repository
      ensures repository.Valid() && SlotInv(id, repository.Look(id))
      ensures SlotRely(me, old(repository.Look(id)), repository.Look(id))
      ensures ok && answer.Some? ==> RecordedIn(repository.Look(id), kind, answer.value)
    {
      hide SlotInv, Evidence, SlotRely;
      answer, cleaned, ok := None, false, false;
      ghost var s0 := repository.Look(id);
      var read := Read(me, id);
      ghost var s1 := repository.Look(id);
      if read.None? { return; }
      var state := read.value.value;
      if kind == ArtifactWrite && state.resultArtifactRef.None? {
        repository.Interfere(me, id);
        ghost var s2 := repository.Look(id);
        RelyThenRely(me, id, s0, s1, s2);
        DispatchSeenStays(me, s1, s2, state);
        var answered := RecoverResult(id, recovered);
        if answered.None? { return; }
        if answered.value.Some? && answered.value.value.ready {
          PublishedIsBegun(id, s2, answered.value.value.refId);
          UnmovedDispatch(me, s0, s2);
          var updated := Update(me, id, SetResult(answered.value.value.refId), rounds);
          RelyThenRely(me, id, s0, s2, repository.Look(id));
          if !updated.Ok? { return; }
          state := updated.value;
        }
      }
      answer := if kind == ProviderTaskCreate then state.providerTaskId else state.resultArtifactRef;
      cleaned, ok := state.resultCleanupDone, true;
    }

    /** `recoverResult` calls a result ready only if the port has stored one; an answer that
        is not truthful counts as a throw. */
    method RecoverResult(id: string, answer: Option<Option<Recovered>>) returns (r: Option<Option<Recovered>>)
      ensures r == answer || r.None?
      ensures r.Some? && r.value.Some? && r.value.value.ready ==> repository.Look(id).published.Some?
    {
      if answer.Some? && answer.value.Some? && answer.value.value.ready && repository.Look(id).published.None? {
        return None;
      }
      r := answer;
    }

    /** Under this worker's own claim: arm, call, record. */
    method RunClaimed(me: Pid, id: string, kind: EffectKind, caller: Caller, claimed: nat, ports: Ports, rounds: nat)
      returns (r: Option<string>)
      requires repository.Valid() && SlotInv(id, repository.Look(id))
              && HoldsClaim(me, repository.Look(id), AsyncFx(id, kind), claimed)
      requires kind == ProviderTaskCreate || kind == ArtifactWrite || kind == ProviderTaskCancel
      modifies repository
      ensures repository.Valid() && SlotInv(id, repository.Look(id))
              && Grows(old(repository.Look(id)), repository.Look(id))
      ensures r.Some? ==> Delivered(repository.Look(id), AsyncFx(id, kind), r.value)
      ensures kind == ProviderTaskCancel && r.Some? && r.value != "acknowledged" ==> ports.cancelled == Some(false)
    {
      hide SlotInv, Evidence, SlotRely, Grows, HoldsClaim, HoldsArmed, CallReturned, CallMade, DocumentJobs.Enabled,
           DocumentJobs.Next;
      var fx := AsyncFx(id, kind);
      ghost var s0 := repository.Look(id);
      repository.Interfere(me, id);
      ghost var s1 := repository.Look(id);
      GrowsOf(me, s0, s1);
      MarkableStays(me, s0, s1, fx, claimed, Arm);
      MarkableIsEnabled(me, s1, fx, claimed, Arm, repository.clock);
      var armed := repository.TransitionEffect(me, id, fx, claimed, Arm, repository.clock);
      ghost var s2 := repository.Look(id);
      GrowsTransitive(s0, s1, s2);
      if !armed { return None; }
      MarkedEffect(me, s1, fx, claimed, Arm, repository.clock);
      var answer := CheckAndOperate(me, id, kind, caller, claimed + 1, ports, rounds);
      ghost var s3 := repository.Look(id);
      GrowsTransitive(s0, s2, s3);
      if answer.Some? {
        var recorded := Record(me, id, kind, claimed + 1, answer.value);
        GrowsTransitive(s0, s3, repository.Look(id));
        if recorded { return answer; }
      }
      ghost var s4 := repository.Look(id);
      GiveUp(me, id, kind, claimed + 1);
      GrowsTransitive(s0, s4, repository.Look(id));
      r := None;
    }

    method CheckAndOperate(me: Pid, id: string, kind: EffectKind, caller: Caller, inflight: nat, ports: Ports,
            rounds: nat)
      returns (r: Option<string>)
      requires repository.Valid() && SlotInv(id, repository.Look(id))
              && HoldsArmed(me, repository.Look(id), AsyncFx(id, kind), inflight)
      requires kind == ProviderTaskCreate || kind == ArtifactWrite || kind == ProviderTaskCancel
      modifies repository
      ensures repository.Valid() && SlotInv(id, repository.Look(id))
              && Grows(old(repository.Look(id)), repository.Look(id))
      ensures CallReturned(me, repository.Look(id), AsyncFx(id, kind), inflight)
      ensures r.Some? ==> OperationAnswered(me, id, repository.Look(id), kind, inflight, r.value)
      ensures kind == ProviderTaskCancel && r.Some? && r.value != "acknowledged" ==> ports.cancelled == Some(false)
    {
      hide SlotInv, Evidence, SlotRely, Grows, HoldsArmed, CallReturned, OperationAnswered;
      var fx := AsyncFx(id, kind);
      ghost var s0 := repository.Look(id);
      GrowsRefl(s0);
      if kind != ProviderTaskCancel {
        var active, _ := AssertActive(me, id, caller, rounds);
        GrowsOf(me, s0, repository.Look(id));
        EntitlementsStay(me, s0, repository.Look(id), fx, inflight);
        if !active {
          ArmedIsEnded(me, repository.Look(id), fx, inflight);
          return None;
        }
      }
      ghost var s1 := repository.Look(id);
      ArmedIsEnded(me, s1, fx, inflight);
      if repository.aborted { return None; }
      if kind == ProviderTaskCreate {
        r := Submit(me, id, caller, inflight, ports, rounds);
      } else if kind == ArtifactWrite {
        r := WriteResult(me, id, caller, inflight, ports, rounds);
      } else {
        r := CallCancel(me, id, inflight, ports.cancelled);
      }
      GrowsTransitive(s0, s1, repository.Look(id));
    }

    /** The actual, billable submission; its answer goes on the dispatch record first. */
    method Submit(me: Pid, id: string, caller: Caller, inflight: nat, ports: Ports, rounds: nat)
      returns (r: Option<string>)
      requires repository.Valid() && SlotInv(id, repository.Look(id))
      requires HoldsArmed(me, repository.Look(id), AsyncFx(id, ProviderTaskCreate), inflight)
      modifies repository
      ensures repository.Valid() && SlotInv(id, repository.Look(id))
              && Grows(old(repository.Look(id)), repository.Look(id))
      ensures CallReturned(me, repository.Look(id), AsyncFx(id, ProviderTaskCreate), inflight)
      ensures r.Some? ==> OperationAnswered(me, id, repository.Look(id), ProviderTaskCreate, inflight, r.value)
      ensures !ports.bytesMatch ==> r.None? && repository.Look(id) == old(repository.Look(id))
      ensures r.Some? ==> r == ports.created && Bounded(r.value, 256) && repository.Look(id).dispatch.Some?
                          && repository.Look(id).dispatch.value.value.providerTaskId == r
    {
      hide SlotInv, Evidence, SlotRely, Grows, HoldsArmed, CallReturned;
      var fx := AsyncFx(id, ProviderTaskCreate);
      ghost var s0 := repository.Look(id);
      GrowsRefl(s0);
      ArmedIsEnded(me, s0, fx, inflight);
      if !ports.bytesMatch { return None; }
      var active, _ := AssertActive(me, id, caller, rounds);
      ghost var s1 := repository.Look(id);
      GrowsOf(me, s0, s1);
      EntitlementsStay(me, s0, s1, fx, inflight);
      ArmedIsEnded(me, s1, fx, inflight);
      if !active || repository.aborted { return None; }
      if ports.created.None? {
        repository.CallUnder(me, fx, inflight, false, repository.clock);
        GrowsTransitive(s0, s1, repository.Look(id));
        return None;
      }
      repository.CallSubmission(me, fx, inflight, ports.created.value, repository.clock);
      ghost var s2 := repository.Look(id);
      GrowsTransitive(s0, s1, s2);
      if !Bounded(ports.created.value, 256) { return None; }
      var saved := Update(me, id, SetProviderTask(ports.created.value), rounds);
      ghost var s3 := repository.Look(id);
      GrowsOf(me, s2, s3);
      GrowsTransitive(s0, s2, s3);
      CallEnded(me, s2, fx, inflight);
      EntitlementsStay(me, s2, s3, fx, inflight);
      ProgressStays(me, s2, s3, fx, inflight);
      r := if saved.Ok? then ports.created else None;
    }

    method WriteResult(me: Pid, id: string, caller: Caller, inflight: nat, ports: Ports, rounds: nat)
      returns (r: Option<string>)
      requires repository.Valid() && SlotInv(id, repository.Look(id))
      requires HoldsArmed(me, repository.Look(id), AsyncFx(id, ArtifactWrite), inflight)
      modifies repository
      ensures repository.Valid() && SlotInv(id, repository.Look(id))
              && Grows(old(repository.Look(id)), repository.Look(id))
      ensures CallReturned(me, repository.Look(id), AsyncFx(id, ArtifactWrite), inflight)
      ensures r.Some? ==> OperationAnswered(me, id, repository.Look(id), ArtifactWrite, inflight, r.value)
    {
      hide SlotInv, Evidence, SlotRely, Grows, HoldsArmed, CallReturned;
      var fx := AsyncFx(id, ArtifactWrite);
      ghost var s0 := repository.Look(id);
      var stored := if ports.written.Some? then ports.written else ports.stored;
      repository.CallWrite(me, fx, inflight, stored, ports.written.Some?, repository.clock);
      ghost var s1 := repository.Look(id);
      if ports.written.None? || !Bounded(ports.written.value, 256) { return None; }
      CallEnded(me, s1, fx, inflight);
      var saved := Update(me, id, SetResult(ports.written.value), rounds);
      ghost var s2 := repository.Look(id);
      GrowsOf(me, s1, s2);
      GrowsTransitive(s0, s1, s2);
      EntitlementsStay(me, s1, s2, fx, inflight);
      ProgressStays(me, s1, s2, fx, inflight);
      if !saved.Ok? { return None; }
      var _ := ReconcileResultCleanup(me, id, caller, ports.innerCleanup, rounds);
      ghost var s3 := repository.Look(id);
      GrowsOf(me, s2, s3);
      GrowsTransitive(s0, s2, s3);
      EntitlementsStay(me, s2, s3, fx, inflight);
      ProgressStays(me, s2, s3, fx, inflight);
      r := ports.written;
    }

    method CallCancel(me: Pid, id: string, inflight: nat, cancelled: Option<bool>) returns (r: Option<string>)
      requires repository.Valid() && SlotInv(id, repository.Look(id))
      requires HoldsArmed(me, repository.Look(id), AsyncFx(id, ProviderTaskCancel), inflight)
      modifies repository
      ensures repository.Valid() && SlotInv(id, repository.Look(id))
              && Grows(old(repository.Look(id)), repository.Look(id))
      ensures CallReturned(me, repository.Look(id), AsyncFx(id, ProviderTaskCancel), inflight)
      ensures r.Some? ==> OperationAnswered(me, id, repository.Look(id), ProviderTaskCancel, inflight, r.value)
      ensures r.Some? ==> cancelled == Some(r.value == "acknowledged")
    {
      hide SlotInv, Evidence, SlotRely, Grows, HoldsArmed, CallReturned;
      var fx := AsyncFx(id, ProviderTaskCancel);
      repository.CallUnder(me, fx, inflight, cancelled == Some(true), repository.clock);
      CallEnded(me, repository.Look(id), fx, inflight);
      if cancelled.None? { return None; }
      assert |"not-acknowledged"| != |"acknowledged"|;
      r := Some(if cancelled.value then "acknowledged" else "not-acknowledged");
    }

    /** The receipt; a cancellation that was not acknowledged is recorded as uncertain. */
    method Record(me: Pid, id: string, kind: EffectKind, inflight: nat, answer: string) returns (recorded: bool)
      requires repository.Valid() && SlotInv(id, repository.Look(id))
      requires CallReturned(me, repository.Look(id), AsyncFx(id, kind), inflight)
      requires kind == ProviderTaskCreate || kind == ArtifactWrite || kind == ProviderTaskCancel
      requires OperationAnswered(me, id, repository.Look(id), kind, inflight, answer)
      modifies repository
      ensures repository.Valid() && SlotInv(id, repository.Look(id))
              && Grows(old(repository.Look(id)), repository.Look(id))
      ensures recorded ==> Delivered(repository.Look(id), AsyncFx(id, kind), answer)
      ensures !recorded ==> CallReturned(me, repository.Look(id), AsyncFx(id, kind), inflight)
    {
      hide SlotInv, Evidence, SlotRely, Grows, CallReturned, OperationAnswered, Markable, DocumentJobs.Enabled,
           DocumentJobs.Next;
      var fx := AsyncFx(id, kind);
      var act := Verdict(kind, answer);
      ghost var s0 := repository.Look(id);
      AnswerIsMarkable(me, id, s0, kind, inflight, answer);
      repository.Interfere(me, id);
      ghost var s1 := repository.Look(id);
      GrowsOf(me, s0, s1);
      MarkableStays(me, s0, s1, fx, inflight, act);
      MarkableIsEnabled(me, s1, fx, inflight, act, repository.clock);
      recorded := repository.TransitionEffect(me, id, fx, inflight, act, repository.clock);
      GrowsTransitive(s0, s1, repository.Look(id));
      if recorded {
        RecordedIsDelivered(me, id, s1, kind, inflight, answer, repository.clock);
      }
    }

    method GiveUp(me: Pid, id: string, kind: EffectKind, inflight: nat)
      requires repository.Valid() && SlotInv(id, repository.Look(id))
              && CallReturned(me, repository.Look(id), AsyncFx(id, kind), inflight)
      modifies repository
      ensures repository.Valid() && SlotInv(id, repository.Look(id))
              && Grows(old(repository.Look(id)), repository.Look(id))
    {
      hide SlotInv, Evidence, SlotRely, Grows, DocumentJobs.Enabled, DocumentJobs.Next;
      var fx := AsyncFx(id, kind);
      ghost var s0 := repository.Look(id);
      assert Markable(me, s0, fx, inflight, Settle(Uncertain, None));
      repository.Interfere(me, id);
      ghost var s1 := repository.Look(id);
      GrowsOf(me, s0, s1);
      MarkableStays(me, s0, s1, fx, inflight, Settle(Uncertain, None));
      MarkableIsEnabled(me, s1, fx, inflight, Settle(Uncertain, None), repository.clock);
      var _ := repository.TransitionEffect(me, id, fx, inflight, Settle(Uncertain, None), repository.clock);
      GrowsTransitive(s0, s1, repository.Look(id));
    }

    /** The receipt of the effect, from this call, an earlier one or durable evidence. */
    method Effect(me: Pid, id: string, kind: EffectKind, caller: Caller, ports: Ports, rounds: nat)
      returns (r: Option<string>)
      requires repository.Valid() && SlotInv(id, repository.Look(id)) && repository.Look(id).job.Some?
      requires kind == ProviderTaskCreate || kind == ArtifactWrite || kind == ProviderTaskCancel
      modifies repository
      ensures repository.Valid() && SlotInv(id, repository.Look(id))
              && Grows(old(repository.Look(id)), repository.Look(id))
      ensures r.Some? ==> Delivered(repository.Look(id), AsyncFx(id, kind), r.value)
      ensures kind == ProviderTaskCancel && r.Some? && r.value != "acknowledged" ==> ports.cancelled == Some(false)
    {
      hide SlotInv, Evidence, SlotRely, HoldsClaim, NotSettledAt;
      ghost var s0 := repository.Look(id);
      GrowsRefl(s0);
      if kind != ProviderTaskCancel {
        var active, _ := AssertActive(me, id, caller, rounds);
        GrowsOf(me, s0, repository.Look(id));
        if !active { return None; }
      }
      ghost var s1 := repository.Look(id);
      if repository.aborted { return None; }
      var granted, receipt, revision, threw := ClaimOrRetry(me, id, kind);
      ghost var s2 := repository.Look(id);
      GrowsTransitive(s0, s1, s2);
      if threw { return None; }
      if granted {
        r := RunClaimed(me, id, kind, caller, revision, ports, rounds);
        GrowsTransitive(s0, s2, repository.Look(id));
      } else if receipt.Some? {
        ReceiptIsDelivered(id, s2, kind, receipt.value);
        r := if receipt.value.Note? then Some(receipt.value.text) else None;
      } else {
        r := ResumeFromEvidence(me, id, kind, caller, revision, ports.recovered, rounds);
        GrowsTransitive(s0, s2, repository.Look(id));
      }
    }

    // ---------------------------------------------------------------- reconciliation

    /** Revokes the result of a job that is terminal without being a live completion. A
        normal return says why nothing more is to be done, or that the cleanup of the
        recorded reference is on record. */
    method ReconcileResultCleanup(me: Pid, id: string, caller: Caller, answers: CleanupAnswers, rounds: nat)
      returns (r: Reply<CleanupDone>)
      requires repository.Valid()
      modifies repository
      ensures repository.Valid() && SlotInv(id, repository.Look(id))
      ensures SlotRely(me, old(repository.Look(id)), repository.Look(id))
      ensures r.Ok? ==> CleanupHolds(repository.Look(id), answers, r.value)
    {
      hide SlotInv, Evidence, SlotRely, Grows, Climbs, DispatchSeen, Recorded;
      ghost var s0 := repository.Look(id);
      repository.LookInv(id);
      var read := Read(me, id);
      ghost var s1 := repository.Look(id);
      if read.None? { return Refused; }
      var state := read.value.value;
      var current := Expire(me, id, caller, state, rounds);
      ghost var s2 := repository.Look(id);
      RelyThenRely(me, id, s0, s1, s2);
      if !current.Ok? { return Refused; }
      ReadIsSeen(me, s1, s2);
      if !Terminal(current.value.value.status) || (current.value.value.status == Completed
              && state.sourceRevocation == NotRevoked) {
        return Ok(StillWanted(state));
      }
      if state.resultCleanupDone { return Ok(AlreadyDone(state)); }
      var found := state;
      if state.resultArtifactRef.None? {
        var located := LocateResult(me, id, state, answers.recovered, rounds);
        RelyThenRely(me, id, s0, s2, repository.Look(id));
        if !located.Ok? { return Refused; }
        if located.value.None? { return Ok(NothingReserved(state)); }
        found := located.value.value;
      }
      ghost var s4 := repository.Look(id);
      if found.resultArtifactRef.None? || repository.aborted { return Refused; }
      var ref := found.resultArtifactRef.value;
      var finished := RevokeAndFinish(me, id, ref, answers.cleanupPending, rounds);
      RelyThenRely(me, id, s0, s4, repository.Look(id));
      if !finished.Ok? { return Refused; }
      r := Ok(if finished.value then Finished(state, ref) else StillPending(state, ref));
    }

    /** The reserved result of a job that is over goes on its dispatch record; None: nothing
        is reserved. */
    method LocateResult(me: Pid, id: string, state: Dispatch, answer: Option<Option<Recovered>>, rounds: nat)
      returns (r: Reply<Option<Dispatch>>)
      requires repository.Valid() && SlotInv(id, repository.Look(id)) && DispatchSeen(repository.Look(id), state)
      requires repository.Look(id).job.Some? && Terminal(repository.Look(id).job.value.value.status)
      modifies repository
      ensures repository.Valid() && SlotInv(id, repository.Look(id)) && repository.Look(id).job.Some?
      ensures SlotRely(me, old(repository.Look(id)), repository.Look(id))
      ensures r == Ok(None) ==> answer == Some(None) && DispatchSeen(repository.Look(id), state)
      ensures r.Ok? && r.value.Some? ==>
                answer.Some? && answer.value.Some? && r.value.value.resultArtifactRef == Some(answer.value.value.refId)
    {
      hide SlotInv, Evidence, SlotRely, Grows, Climbs, DispatchSeen;
      ghost var s2 := repository.Look(id);
      repository.Interfere(me, id);
      ghost var s3 := repository.Look(id);
      UnmovedDispatch(me, s2, s3);
      var recovered := RecoverResult(id, answer);
      if recovered.None? { return Refused; }
      if recovered.value.None? {
        DispatchSeenStays(me, s2, s3, state);
        return Ok(None);
      }
      assert Justified(id, s2, SetResult(recovered.value.value.refId));
      JustifiedStays(me, id, s2, s3, SetResult(recovered.value.value.refId));
      var updated := Update(me, id, SetResult(recovered.value.value.refId), rounds);
      RelyThenRely(me, id, s2, s3, repository.Look(id));
      UnmovedDispatch(me, s3, repository.Look(id));
      r := if updated.Ok? then Ok(Some(updated.value)) else Refused;
    }

    /** The cleanup is recorded only when the port reports nothing pending. */
    method RevokeAndFinish(me: Pid, id: string, ref: string, cleanupPending: Option<bool>, rounds: nat)
      returns (r: Reply<bool>)
      requires repository.Valid() && SlotInv(id, repository.Look(id)) && repository.Look(id).job.Some?
      modifies repository
      ensures repository.Valid() && SlotInv(id, repository.Look(id))
      ensures SlotRely(me, old(repository.Look(id)), repository.Look(id))
      ensures r.Ok? ==> cleanupPending == Some(!r.value)
      ensures r == Ok(true) ==>
                && repository.Look(id).dispatch.Some?
                && (repository.Look(id).dispatch.value.value.resultCleanupDone <==>
                      repository.Look(id).dispatch.value.value.resultArtifactRef == Some(ref))
    {
      hide SlotInv, Evidence, SlotRely, Grows;
      SlotRelyRefl(me, repository.Look(id));
      if cleanupPending.None? { return Refused; }
      if cleanupPending.value { return Ok(false); }
      var finished := Update(me, id, FinishCleanup(ref), rounds);
      r := if finished.Ok? then Ok(true) else Refused;
    }

    /** Carries out a cancellation that is on record and not yet acknowledged. Some(true):
        the acknowledgement is on record; None: there was nothing to carry out. */
    method ReconcileCancellation(me: Pid, id: string, caller: Caller, ports: Ports, rounds: nat)
      returns (r: Reply<Option<bool>>)
      requires repository.Valid()
      modifies repository
      ensures repository.Valid() && SlotInv(id, repository.Look(id))
              && Grows(old(repository.Look(id)), repository.Look(id))
      ensures r.Ok? ==> CancelHolds(id, repository.Look(id), ports, r.value)
    {
      hide SlotInv, Evidence, SlotRely, Climbs, Justified, Delivered, DispatchSeen, AcknowledgedOnRecord;
      r := Refused;
      ghost var s0 := repository.Look(id);
      repository.LookInv(id);
      GrowsRefl(s0);
      var job := repository.Get(me, id, caller, repository.clock, rounds);
      ghost var s1 := repository.Look(id);
      GrowsOf(me, s0, s1);
      if !job.Ok? { return; }
      var read := Read(me, id);
      ghost var s2 := repository.Look(id);
      GrowsOf(me, s1, s2);
      GrowsTransitive(s0, s1, s2);
      if read.None? || repository.aborted { return; }
      var state := read.value.value;
      if NothingToCancel(state) {
        SlotRelyRefl(me, s2);
        ReadIsSeen(me, s2, s2);
        return Ok(None);
      }
      var acknowledged := Effect(me, id, ProviderTaskCancel, caller, ports, rounds);
      ghost var s3 := repository.Look(id);
      GrowsTransitive(s0, s2, s3);
      if acknowledged.None? { return; }
      AcknowledgementJustified(id, s3, acknowledged.value);
      var updated := Update(me, id, Acknowledge(acknowledged.value == "acknowledged"), rounds);
      GrowsOf(me, s3, repository.Look(id));
      GrowsTransitive(s0, s3, repository.Look(id));
      if !updated.Ok? { return; }
      r := Ok(Some(acknowledged.value == "acknowledged"));
      if r.value == Some(true) { AcknowledgedIsSettled(id, repository.Look(id)); }
    }

    // ---------------------------------------------------------------- what callers see

    /** What a caller reads: the job as it is now, and the dispatch record as it was `read`
        during the call. */
    method Status(me: Pid, id: string, caller: Caller, rounds: nat) returns (r: Reply<AsyncStatus>, ghost read: Slot)
      requires repository.Valid()
      modifies repository
      ensures repository.Valid() && SlotInv(id, repository.Look(id))
      ensures SlotRely(me, old(repository.Look(id)), repository.Look(id))
      ensures SlotRely(me, old(repository.Look(id)), read) && SlotRely(me, read, repository.Look(id))
      ensures r.Ok? ==> Truthful(id, old(repository.Look(id)), read, repository.Look(id), r.value)
    {
      hide SlotInv, Evidence, SlotRely, Grows, Climbs, Truthful;
      ghost var s0 := repository.Look(id);
      repository.LookInv(id);
      var record := Read(me, id);
      ghost var s1 := repository.Look(id);
      read := s1;
      SlotRelyRefl(me, s1);
      if record.None? { return Refused, read; }
      var state := record.value.value;
      var current := Expire(me, id, caller, state, rounds);
      ghost var s2 := repository.Look(id);
      RelyThenRely(me, id, s0, s1, s2);
      if !current.Ok? { return Refused, read; }
      var job := current.value.value;
      r := Ok(AsyncStatus(job.status, if state.sourceRevocation == NotRevoked then job.resultArtifactRef else None,
                          state.dispatchCancelled, state.upstreamRequested, state.upstreamAcknowledged,
                          state.resultArtifactRef.Some? && !state.resultCleanupDone
                                  && (job.status != Completed || state.sourceRevocation != NotRevoked),
                          state.sourceRevocation));
      StatusIsTruthful(me, id, s0, s1, s2, r.value);
    }

    /** Durable metadata for a job; the source snapshot, policy and budget are fixed here: a
        dispatch record this call created is made of the inspected source, the policy and
        the job's own creation time, and no later step changes those. */
    method Create(me: Pid, jobId: string, caller: Caller, idempotencyKey: string, sourceRefId: string, expiresAt: int,
            policy: Policy, fingerprint: string, ports: Ports, rounds: nat)
      returns (r: Reply<AsyncStatus>)
      requires repository.Valid()
      modifies repository
      ensures repository.Valid() && SlotInv(jobId, repository.Look(jobId))
      ensures r.Ok? ==>
                && repository.Look(jobId).dispatch.Some? && repository.Look(jobId).job.Some?
                && OwnedBy(repository.Look(jobId).job.value.value, caller)
                && (old(repository.Look(jobId)).dispatch.Some? ==>
                      Climbs(old(repository.Look(jobId)).dispatch.value.value,
                             repository.Look(jobId).dispatch.value.value))
      ensures r.Ok? && repository.Look(jobId).opener == Some(me) && old(repository.Look(jobId)).opener != Some(me) ==>
                && ports.inspected.Some? && ports.inspected.value.refId == sourceRefId
                && ports.inspected.value.byteSize <= policy.maxInputBytes
                && Climbs(NewDispatch(ports.inspected.value, policy, repository.Look(jobId).job.value.value.createdAt),
                          repository.Look(jobId).dispatch.value.value)
    {
      hide SlotInv, Evidence, SlotRely, Grows, Climbs, Truthful;
      repository.LookInv(jobId);
      ghost var s0 := repository.Look(jobId);
      if ports.inspected.None? { return Refused; }
      var source := ports.inspected.value;
      repository.Interfere(me, jobId);
      ghost var s1 := repository.Look(jobId);
      GrowsOf(me, s0, s1);
      var now := repository.clock;
      if source.refId != sourceRefId || source.byteSize > policy.maxInputBytes
         || Min(Min(source.expiresAt, expiresAt), policy.absoluteDeadlineMs) <= now || repository.aborted {
        return Refused;
      }
      var created, _ := repository.CreateIfAbsent(me, jobId, caller, idempotencyKey, fingerprint, now,
                                                  Min(expiresAt, source.expiresAt));
      ghost var s2 := repository.Look(jobId);
      GrowsTransitive(s0, s1, s2);
      repository.LookInv(jobId);
      if !created.Ok? { return Refused; }
      var state := NewDispatch(source, policy, created.value.value.createdAt);
      repository.Interfere(me, jobId);
      ghost var s3 := repository.Look(jobId);
      GrowsOf(me, s2, s3);
      GrowsTransitive(s0, s2, s3);
      UnmovedDispatch(me, s2, s3);
      repository.CreateDispatchIfAbsent(me, jobId, state, now);
      ghost var s4 := repository.Look(jobId);
      GrowsTransitive(s0, s3, s4);
      ghost var read;
      r, read := Status(me, jobId, caller, rounds);
      GrowsOf(me, s4, repository.Look(jobId));
      GrowsTransitive(s0, s4, repository.Look(jobId));
      CreatedStays(s0, s4, repository.Look(jobId), caller, created.value, s2, s3);
      DispatchClimbs(s4, repository.Look(jobId));
      if repository.Look(jobId).opener == Some(me) {
        OpenerStays(me, s4, repository.Look(jobId));
        if s3.dispatch.Some? {
          OpenerStays(me, s2, s3);
          OpenerStays(me, s0, s1);
        }
      }
    }

    /** The dispatch record a new job starts with. */
    function NewDispatch(source: Snapshot, policy: Policy, createdAt: int): Dispatch {
      Dispatch(source, providerId, policy, Min(policy.absoluteDeadlineMs, createdAt + policy.totalExecutionBudgetMs),
               None, false, false, false, None, false, NotRevoked)
    }

    /** Once cancellation returns, the job is terminal for good. */
    method Cancel(me: Pid, id: string, caller: Caller, upstream: bool, ports: Ports, cleanup: CleanupAnswers,
            rounds: nat)
      returns (r: Reply<AsyncStatus>, ghost chores: Chores)
      requires repository.Valid()
      modifies repository
      ensures repository.Valid() && SlotInv(id, repository.Look(id))
              && Grows(old(repository.Look(id)), repository.Look(id))
      ensures r.Ok? ==> repository.Look(id).job.Some? && Terminal(repository.Look(id).job.value.value.status)
                        && r.value.status == repository.Look(id).job.value.value.status
      ensures r.Ok? && r.value.status == Cancelled ==>
                r.value.dispatchCancelled && (upstream ==> r.value.upstreamRequested)
      ensures r.Ok? ==> ChoresDone(id, old(repository.Look(id)), chores, repository.Look(id), cleanup, ports,
                                   upstream && r.value.status == Cancelled)
    {
      hide SlotInv, Evidence, SlotRely, Grows, Climbs, CleanupHolds, CancelHolds;
      ghost var s0 := repository.Look(id);
      chores := Chores(s0, Unfinished, s0, None);
      repository.LookInv(id);
      var before := repository.Get(me, id, caller, repository.clock, rounds);
      ghost var s1 := repository.Look(id);
      GrowsOf(me, s0, s1);
      if !before.Ok? || repository.aborted { return Refused, chores; }
      if Terminal(before.value.value.status) && before.value.value.status != Cancelled {
        var cleaned := ReconcileResultCleanup(me, id, caller, cleanup, rounds);
        ghost var s2 := repository.Look(id);
        RelyThenRely(me, id, s0, s1, s2);
        GrowsOf(me, s0, s2);
        GrowsOf(me, s1, s2);
        if !cleaned.Ok? { return Refused, chores; }
        chores := Chores(s2, cleaned.value, s2, None);
        GrowsRefl(s2);
        r := StatusOfTerminal(me, id, caller, s1, rounds);
        GrowsTransitive(s0, s2, repository.Look(id));
        GrowsTransitive(s1, s2, repository.Look(id));
        TerminalStays(s1, repository.Look(id));
        return;
      }
      var marked := Update(me, id, CancelDispatch(upstream), rounds);
      ghost var s3 := repository.Look(id);
      RelyThenRely(me, id, s0, s1, s3);
      GrowsOf(me, s0, s3);
      if !marked.Ok? { return Refused, chores; }
      var stopped := CancelJob(me, id, caller, rounds);
      ghost var s4 := repository.Look(id);
      RelyThenRely(me, id, s0, s3, s4);
      GrowsOf(me, s0, s4);
      if !stopped { return Refused, chores; }
      GrowsOf(me, s3, s4);
      CancelIsOnRecord(s3, s4, upstream);
      r, chores := AfterCancel(me, id, caller, upstream, ports, cleanup, rounds);
      GrowsTransitive(s0, s4, repository.Look(id));
      if r.Ok? {
        GrowsRefl(repository.Look(id));
        ChoresFitIn(id, s0, s4, chores, repository.Look(id), repository.Look(id), cleanup, ports, upstream);
      }
    }

    /** Cancels the job from whatever revision it is at, unless it has ended meanwhile. */
    method CancelJob(me: Pid, id: string, caller: Caller, rounds: nat) returns (stopped: bool)
      requires repository.Valid()
      modifies repository
      ensures repository.Valid() && SlotInv(id, repository.Look(id))
      ensures SlotRely(me, old(repository.Look(id)), repository.Look(id))
      ensures stopped ==> repository.Look(id).job.Some? && Terminal(repository.Look(id).job.value.value.status)
    {
      hide SlotInv, Evidence, SlotRely, Grows;
      repository.LookInv(id);
      SlotRelyRefl(me, repository.Look(id));
      for round := 0 to rounds
        invariant repository.Valid() && SlotInv(id, repository.Look(id))
        invariant SlotRely(me, old(repository.Look(id)), repository.Look(id))
      {
        ghost var s0 := repository.Look(id);
        var current := repository.Get(me, id, caller, repository.clock, rounds);
        ghost var s1 := repository.Look(id);
        RelyThenRely(me, id, old(repository.Look(id)), s0, s1);
        if !current.Ok? || repository.aborted { return false; }
        if Terminal(current.value.value.status) { return true; }
        var changed := repository.Transition(me, id, caller, current.value.revision, Cancelled, repository.clock, None,
            None, rounds);
        RelyThenRely(me, id, old(repository.Look(id)), s1, repository.Look(id));
        if !changed.Ok? { return false; }
        if changed.value.Moved? { return true; }
      }
      stopped := false;
    }

    method AfterCancel(me: Pid, id: string, caller: Caller, upstream: bool, ports: Ports, cleanup: CleanupAnswers,
            rounds: nat)
      returns (r: Reply<AsyncStatus>, ghost chores: Chores)
      requires repository.Valid() && SlotInv(id, repository.Look(id))
      requires repository.Look(id).job.Some? && Terminal(repository.Look(id).job.value.value.status)
      requires CancelOnRecord(repository.Look(id), upstream)
      modifies repository
      ensures repository.Valid() && SlotInv(id, repository.Look(id))
              && Grows(old(repository.Look(id)), repository.Look(id))
      ensures r.Ok? ==> r.value.dispatchCancelled && (upstream ==> r.value.upstreamRequested)
      ensures r.Ok? ==> repository.Look(id).job.Some? && Terminal(repository.Look(id).job.value.value.status)
                        && r.value.status == repository.Look(id).job.value.value.status
      ensures r.Ok? ==> ChoresDone(id, old(repository.Look(id)), chores, repository.Look(id), cleanup, ports, upstream)
    {
      hide SlotInv, Evidence, SlotRely, Grows, Climbs, CleanupHolds, CancelHolds;
      ghost var s0 := repository.Look(id);
      var cleaned := ReconcileResultCleanup(me, id, caller, cleanup, rounds);
      ghost var s1 := repository.Look(id);
      chores := Chores(s1, Unfinished, s1, None);
      GrowsOf(me, s0, s1);
      if !cleaned.Ok? { return Refused, chores; }
      chores := Chores(s1, cleaned.value, s1, None);
      GrowsRefl(s1);
      if upstream {
        var reconciled := ReconcileCancellation(me, id, caller, ports, rounds);
        GrowsTransitive(s0, s1, repository.Look(id));
        if !reconciled.Ok? { return Refused, chores; }
        chores := chores.(cancelled := repository.Look(id), cancellation := Some(reconciled.value));
      }
      ghost var s2 := repository.Look(id);
      CancelIsOnRecord(s0, s2, upstream);
      r := StatusOfTerminal(me, id, caller, s0, rounds);
      if r.Ok? { CancelIsShown(id, s2, repository.Look(id), r.value, upstream); }
      GrowsTransitive(s0, s2, repository.Look(id));
    }

    method StatusOfTerminal(me: Pid, id: string, caller: Caller, ghost before: Slot, rounds: nat)
      returns (r: Reply<AsyncStatus>)
      requires repository.Valid() && Grows(before, repository.Look(id))
      requires before.job.Some? && Terminal(before.job.value.value.status)
      modifies repository
      ensures r.Ok? ==> exists read :: Truthful(id, old(repository.Look(id)), read, repository.Look(id), r.value)
      ensures repository.Valid() && SlotInv(id, repository.Look(id))
              && Grows(old(repository.Look(id)), repository.Look(id))
      ensures r.Ok? ==> repository.Look(id).job.Some? && Terminal(repository.Look(id).job.value.value.status)
                        && r.value.status == repository.Look(id).job.value.value.status
    {
      hide SlotInv, Evidence, SlotRely, Grows, Climbs;
      ghost var s0 := repository.Look(id);
      ghost var read;
      r, read := Status(me, id, caller, rounds);
      GrowsOf(me, s0, repository.Look(id));
      GrowsTransitive(before, s0, repository.Look(id));
      TerminalStays(before, repository.Look(id));
    }

    /** Returning means: the job is over, its dispatch record says why, and no result is shown. */
    method RevokeSource(me: Pid, id: string, caller: Caller, reason: Revocation, cleanup: CleanupAnswers,
            rounds: nat)
      returns (r: Reply<AsyncStatus>, ghost cleaned: Slot, ghost done: CleanupDone)
      requires repository.Valid() && reason != NotRevoked
      modifies repository
      ensures repository.Valid() && SlotInv(id, repository.Look(id))
              && Grows(old(repository.Look(id)), repository.Look(id))
      ensures r.Ok? ==>
                && Terminal(r.value.status) && r.value.dispatchCancelled && r.value.resultArtifactRef == None
                && RevocationRank(reason) <= RevocationRank(r.value.sourceRevocation)
      ensures r.Ok? ==> Grows(old(repository.Look(id)), cleaned) && Grows(cleaned, repository.Look(id))
                        && CleanupHolds(cleaned, cleanup, done)
    {
      hide SlotInv, Evidence, SlotRely, Grows, Climbs, CleanupHolds;
      ghost var s0 := repository.Look(id);
      cleaned, done := s0, Unfinished;
      repository.LookInv(id);
      var ended := repository.RevokeSource(me, id, caller, repository.clock);
      ghost var s1 := repository.Look(id);
      GrowsOf(me, s0, s1);
      if !ended.Ok? || repository.aborted { return Refused, cleaned, done; }
      var marked := Update(me, id, RevokeDispatch(reason), rounds);
      ghost var s2 := repository.Look(id);
      RelyThenRely(me, id, s0, s1, s2);
      GrowsOf(me, s0, s2);
      if !marked.Ok? { return Refused, cleaned, done; }
      var reconciled := ReconcileResultCleanup(me, id, caller, cleanup, rounds);
      ghost var s3 := repository.Look(id);
      RelyThenRely(me, id, s0, s2, s3);
      GrowsOf(me, s0, s3);
      if !reconciled.Ok? { return Refused, cleaned, done; }
      cleaned, done := s3, reconciled.value;
      ghost var read;
      r, read := Status(me, id, caller, rounds);
      GrowsOf(me, s3, repository.Look(id));
      GrowsTransitive(s0, s3, repository.Look(id));
      if r.Ok? { RevokedIsShown(me, id, s1, s2, s3, repository.Look(id), reason, r.value); }
    }

    // ---------------------------------------------------------------- one attempt

    /** What the provider answered decides: nothing but its answer ends the job, and how.
        Completion is reported only when the journal holds the submission's and the result's
        receipts, and the job's result is that receipt. */
    method Advance(me: Pid, id: string, caller: Caller, ports: Ports, early: CleanupAnswers, last: CleanupAnswers,
            rounds: nat)
      returns (r: Reply<Attempt>, ghost asked: Option<Slot>, ghost rest: Option<Rest>)
      requires repository.Valid() && repository.driver == ByRuntime
      modifies repository
      ensures repository.Valid() && SlotInv(id, repository.Look(id))
              && Grows(old(repository.Look(id)), repository.Look(id))
      ensures r.Ok? ==> AsAnswered(ports.poll, r.value, asked)
      ensures r == Ok(Waiting) ==> StillLive(asked.value) && SlotRely(me, asked.value, repository.Look(id))
      ensures asked.Some? ==> Grows(old(repository.Look(id)), asked.value) && Grows(asked.value, repository.Look(id))
      ensures r.Ok? && r.value.MarkedCompleted? ==> CompletedWith(id, repository.Look(id), r.value.refId)
      ensures asked.Some? ==> ports.inspected == SourceOf(repository.Look(id))
      ensures r.Ok? && r.value.MarkedCompleted? ==> ports.inspectedAgain == SourceOf(repository.Look(id))
      ensures r == Ok(Attempt.Idle) ==> Over(repository.Look(id))
      ensures r == Ok(Attempt.Idle) && Over(old(repository.Look(id))) ==> rest.Some?
      ensures rest.Some? ==> Rested(id, old(repository.Look(id)), rest.value, repository.Look(id), early, ports)
    {
      hide SlotInv, Evidence, SlotRely, Grows, Climbs, CompletedWith, AsAnswered, Over, Rested, DispatchSeen;
      asked, rest := None, None;
      ghost var s0 := repository.Look(id);
      repository.LookInv(id);
      GrowsRefl(s0);
      if repository.aborted { return Refused, asked, rest; }
      var before := repository.Get(me, id, caller, repository.clock, rounds);
      ghost var s1 := repository.Look(id);
      GrowsOf(me, s0, s1);
      if !before.Ok? { return Refused, asked, rest; }
      var read := Read(me, id);
      ghost var s2 := repository.Look(id);
      RelyThenRely(me, id, s0, s1, s2);
      GrowsOf(me, s0, s2);
      if read.None? { return Refused, asked, rest; }
      var state := read.value.value;
      var current := Expire(me, id, caller, state, rounds);
      ghost var s3 := repository.Look(id);
      RelyThenRely(me, id, s0, s2, s3);
      GrowsOf(me, s0, s3);
      if !current.Ok? { return Refused, asked, rest; }
      OverStays(s0, s3);
      IsOver(s3);
      ReadDuringCall(me, s0, s2, s3);
      if Terminal(current.value.value.status) {
        ghost var how;
        r, how := AdvanceTerminal(me, id, caller, state, before.value.value.status, current.value.value.status, ports,
            early, rounds);
        GrowsTransitive(s0, s3, repository.Look(id));
        OverStays(s3, repository.Look(id));
        if r.Ok? {
          rest := Some(Rest(state, how));
          GrowsRefl(repository.Look(id));
          ChoresFitIn(id, s0, s3, how, repository.Look(id), repository.Look(id), early, ports,
                      state.upstreamRequested && !state.upstreamAcknowledged);
          IsRested(id, s0, rest.value, repository.Look(id), early, ports);
        }
        NothingAsked(ports.poll);
        return;
      }
      var active, _ := AssertActive(me, id, caller, rounds);
      ghost var s4 := repository.Look(id);
      RelyThenRely(me, id, s0, s3, s4);
      GrowsOf(me, s0, s4);
      if !active { return Refused, asked, rest; }
      r, asked := AttemptOnce(me, id, caller, state, current.value, ports, rounds);
      ghost var s5 := repository.Look(id);
      GrowsTransitive(s0, s4, s5);
      var _ := ReconcileResultCleanup(me, id, caller, last, rounds);
      GrowsOf(me, s5, repository.Look(id));
      OverStays(s5, repository.Look(id));
      GrowsOf(me, s3, s4);
      GrowsTransitive(s3, s4, s5);
      SourceStays(s3, state, s5, repository.Look(id));
      if asked.Some? {
        GrowsTransitive(s0, s4, asked.value);
        GrowsTransitive(asked.value, s5, repository.Look(id));
      }
      GrowsTransitive(s0, s5, repository.Look(id));
      if r.Ok? && r.value.MarkedCompleted? { CompletedStays(id, s5, repository.Look(id), r.value.refId); }
    }

    method AdvanceTerminal(me: Pid, id: string, caller: Caller, state: Dispatch, before: JobStatus, now: JobStatus,
            ports: Ports, early: CleanupAnswers, rounds: nat)
      returns (r: Reply<Attempt>, ghost chores: Chores)
      requires repository.Valid() && SlotInv(id, repository.Look(id)) && DispatchSeen(repository.Look(id), state)
      modifies repository
      ensures repository.Valid() && SlotInv(id, repository.Look(id))
              && Grows(old(repository.Look(id)), repository.Look(id))
      ensures r.Ok? ==> r.value == Idle && (Terminal(before) || now != Expired)
      ensures r.Ok? ==> ChoresDone(id, old(repository.Look(id)), chores, repository.Look(id), early, ports,
                                   state.upstreamRequested && !state.upstreamAcknowledged)
    {
      hide SlotInv, Evidence, SlotRely, Grows, CleanupHolds, CancelHolds, DispatchSeen;
      ghost var s0 := repository.Look(id);
      chores := Chores(s0, Unfinished, s0, None);
      var cleaned := ReconcileResultCleanup(me, id, caller, early, rounds);
      ghost var s1 := repository.Look(id);
      GrowsOf(me, s0, s1);
      GrowsRefl(s1);
      if !cleaned.Ok? { return Refused, chores; }
      chores := Chores(s1, cleaned.value, s1, None);
      if state.upstreamRequested && !state.upstreamAcknowledged {
        var reconciled := ReconcileCancellation(me, id, caller, ports, rounds);
        GrowsTransitive(s0, s1, repository.Look(id));
        if !reconciled.Ok? { return Refused, chores; }
        chores := Chores(s1, cleaned.value, repository.Look(id), Some(reconciled.value));
        GrowsRefl(repository.Look(id));
      }
      if !Terminal(before) && now == Expired { return Refused, chores; }
      r := Ok(Idle);
    }

    method AttemptOnce(me: Pid, id: string, caller: Caller, state: Dispatch, current: Record<Job>, ports: Ports,
            rounds: nat)
      returns (r: Reply<Attempt>, ghost asked: Option<Slot>)
      requires repository.Valid() && repository.driver == ByRuntime && SlotInv(id, repository.Look(id))
              && repository.Look(id).job.Some?
      modifies repository
      ensures repository.Valid() && SlotInv(id, repository.Look(id))
              && Grows(old(repository.Look(id)), repository.Look(id))
      ensures r.Ok? ==> AsAnswered(ports.poll, r.value, asked)
      ensures r == Ok(Attempt.Idle) ==> Over(repository.Look(id))
      ensures r == Ok(Waiting) ==> asked == Some(repository.Look(id)) && StillLive(repository.Look(id))
      ensures asked.Some? ==> Grows(old(repository.Look(id)), asked.value) && Grows(asked.value, repository.Look(id))
      ensures r.Ok? && r.value.MarkedCompleted? ==> CompletedWith(id, repository.Look(id), r.value.refId)
      ensures asked.Some? ==> ports.inspected == Some(state.source)
      ensures r.Ok? && r.value.MarkedCompleted? ==> ports.inspectedAgain == Some(state.source)
    {
      hide SlotInv, Evidence, SlotRely, Grows, Climbs, CompletedWith, Delivered, AsAnswered;
      asked := None;
      ghost var s0 := repository.Look(id);
      GrowsRefl(s0);
      if current.value.status != Running {
        var moved := repository.Transition(me, id, caller, current.revision, Running, repository.clock, None, None,
            rounds);
        GrowsOf(me, s0, repository.Look(id));
        JobStays(s0, repository.Look(id));
        if !moved.Ok? { return Refused, asked; }
        if Terminal(moved.value.value.value.status) {
          NothingAsked(ports.poll);
          return Ok(Idle), asked;
        }
      }
      ghost var s1 := repository.Look(id);
      if ports.inspected != Some(state.source) { return Refused, asked; }
      var task := Effect(me, id, ProviderTaskCreate, caller, ports, rounds);
      ghost var s2 := repository.Look(id);
      GrowsTransitive(s0, s1, s2);
      if task.None? { return Refused, asked; }
      DeliveredSubmission(id, s2, task.value);
      var submitted := Update(me, id, SetProviderTask(task.value), rounds);
      ghost var s3 := repository.Look(id);
      GrowsOf(me, s2, s3);
      GrowsTransitive(s0, s2, s3);
      DeliveredStays(id, s2, s3, AsyncFx(id, ProviderTaskCreate), task.value);
      if !submitted.Ok? { return Refused, asked; }
      if submitted.value.upstreamRequested && !submitted.value.upstreamAcknowledged {
        var reconciled := ReconcileCancellation(me, id, caller, ports, rounds);
        GrowsTransitive(s0, s3, repository.Look(id));
        DeliveredStays(id, s3, repository.Look(id), AsyncFx(id, ProviderTaskCreate), task.value);
        if !reconciled.Ok? { return Refused, asked; }
      }
      ghost var s4 := repository.Look(id);
      r, asked := PollOnce(me, id, caller, state, task.value, ports, rounds);
      GrowsTransitive(s0, s4, repository.Look(id));
      if asked.Some? { GrowsTransitive(s0, s4, asked.value); }
    }

    /** Polls the submitted task once, while the job may still run before and after, and acts
        on the answer; `asked` is the state once it was found to run still. */
    method PollOnce(me: Pid, id: string, caller: Caller, state: Dispatch, task: string, ports: Ports, rounds: nat)
      returns (r: Reply<Attempt>, ghost asked: Option<Slot>)
      requires repository.Valid() && repository.driver == ByRuntime && SlotInv(id, repository.Look(id))
      requires Delivered(repository.Look(id), AsyncFx(id, ProviderTaskCreate), task)
      modifies repository
      ensures repository.Valid() && SlotInv(id, repository.Look(id))
              && Grows(old(repository.Look(id)), repository.Look(id))
      ensures r.Ok? ==> asked.Some? && AsAnswered(ports.poll, r.value, asked) && r.value != Attempt.Idle
      ensures r == Ok(Waiting) ==> asked == Some(repository.Look(id)) && StillLive(repository.Look(id))
      ensures asked.Some? ==> Grows(old(repository.Look(id)), asked.value) && Grows(asked.value, repository.Look(id))
      ensures r.Ok? && r.value.MarkedCompleted? ==> CompletedWith(id, repository.Look(id), r.value.refId)
      ensures r.Ok? && r.value.MarkedCompleted? ==> ports.inspectedAgain == Some(state.source)
    {
      hide SlotInv, Evidence, SlotRely, Grows, Climbs, CompletedWith, Delivered, AsAnswered;
      ghost var s0 := repository.Look(id);
      asked := None;
      var active, _ := AssertActive(me, id, caller, rounds);
      ghost var s1 := repository.Look(id);
      GrowsOf(me, s0, s1);
      if !active || repository.aborted || ports.poll.None? { return Refused, asked; }
      DeliveredStays(id, s0, s1, AsyncFx(id, ProviderTaskCreate), task);
      DeliveredIsSubmitted(id, s1, task);
      repository.Step(me, id, Polled(Poll(task, ports.poll.value)), repository.clock);
      ghost var s2 := repository.Look(id);
      GrowsTransitive(s0, s1, s2);
      PolledNow(me, id, s1, task, ports.poll.value, repository.clock);
      var still, _ := AssertActive(me, id, caller, rounds);
      ghost var s3 := repository.Look(id);
      GrowsOf(me, s2, s3);
      GrowsTransitive(s0, s2, s3);
      if !still || repository.aborted { return Refused, asked; }
      asked := Some(s3);
      GrowsRefl(s3);
      DeliveredStays(id, s0, s3, AsyncFx(id, ProviderTaskCreate), task);
      PolledStays(s2, s3, ports.poll.value);
      r := ActOn(me, id, caller, state, task, ports, rounds);
      GrowsTransitive(s0, s3, repository.Look(id));
      AskedHere(ports.poll, r, s3, repository.Look(id));
    }

    /** What an answer leads to. */
    method ActOn(me: Pid, id: string, caller: Caller, state: Dispatch, task: string, ports: Ports, rounds: nat)
      returns (r: Reply<Attempt>)
      requires repository.Valid() && repository.driver == ByRuntime && SlotInv(id, repository.Look(id))
      requires Delivered(repository.Look(id), AsyncFx(id, ProviderTaskCreate), task)
      requires ports.poll.Some? && PolledAs(repository.Look(id), ports.poll.value) && StillLive(repository.Look(id))
      modifies repository
      ensures repository.Valid() && SlotInv(id, repository.Look(id))
              && Grows(old(repository.Look(id)), repository.Look(id))
      ensures r.Ok? ==> LeadsTo(ports.poll.value, r.value)
      ensures ports.poll.value == StillRunning ==> r == Ok(Waiting) && repository.Look(id) == old(repository.Look(id))
      ensures r.Ok? && r.value.MarkedCompleted? ==> CompletedWith(id, repository.Look(id), r.value.refId)
      ensures r.Ok? && r.value.MarkedCompleted? ==> ports.inspectedAgain == Some(state.source)
    {
      hide SlotInv, Evidence, SlotRely, Grows, Climbs, CompletedWith, Delivered;
      ghost var s0 := repository.Look(id);
      GrowsRefl(s0);
      match ports.poll.value {
        case StillRunning => r := Ok(Waiting);
        case ProviderFailed =>
          r := MarkFailed(me, id, caller, rounds);
        case ProviderCompleted(acceptable) =>
          if ports.inspectedAgain != Some(state.source) || !acceptable { return Refused; }
          var ref := Effect(me, id, ArtifactWrite, caller, ports, rounds);
          ghost var s1 := repository.Look(id);
          DeliveredStays(id, s0, s1, AsyncFx(id, ProviderTaskCreate), task);
          PolledStays(s0, s1, ports.poll.value);
          if ref.None? { return Refused; }
          r := MarkCompleted(me, id, caller, task, ref.value, rounds);
          GrowsTransitive(s0, s1, repository.Look(id));
      }
    }

    method MarkFailed(me: Pid, id: string, caller: Caller, rounds: nat) returns (r: Reply<Attempt>)
      requires repository.Valid() && SlotInv(id, repository.Look(id)) && PolledAs(repository.Look(id), ProviderFailed)
      modifies repository
      ensures repository.Valid() && SlotInv(id, repository.Look(id))
              && Grows(old(repository.Look(id)), repository.Look(id))
      ensures r.Ok? ==> r.value == MarkedFailed || r.value == LostTheRace
      ensures r.Ok? && r.value == MarkedFailed ==>
                repository.Look(id).job.Some? && repository.Look(id).job.value.value.status == Failed
    {
      hide SlotInv, Evidence, SlotRely, Grows;
      ghost var s0 := repository.Look(id);
      var latest := repository.Get(me, id, caller, repository.clock, rounds);
      ghost var s1 := repository.Look(id);
      GrowsOf(me, s0, s1);
      if !latest.Ok? || repository.aborted { return Refused; }
      PolledStays(s0, s1, ProviderFailed);
      var moved := repository.Transition(me, id, caller, latest.value.revision, Failed, repository.clock, None,
                                         Some(Some("Document provider execution failed")), rounds);
      RelyThenRely(me, id, s0, s1, repository.Look(id));
      GrowsOf(me, s0, repository.Look(id));
      if !moved.Ok? { return Refused; }
      r := Ok(if moved.value.Moved? then MarkedFailed else LostTheRace);
    }

    method MarkCompleted(me: Pid, id: string, caller: Caller, task: string, ref: string, rounds: nat)
      returns (r: Reply<Attempt>)
      requires repository.Valid() && repository.driver == ByRuntime && SlotInv(id, repository.Look(id))
      requires Delivered(repository.Look(id), AsyncFx(id, ProviderTaskCreate), task)
      requires Delivered(repository.Look(id), AsyncFx(id, ArtifactWrite), ref)
      requires PolledAs(repository.Look(id), ProviderCompleted(true))
      modifies repository
      ensures repository.Valid() && SlotInv(id, repository.Look(id))
              && Grows(old(repository.Look(id)), repository.Look(id))
      ensures r.Ok? ==> r.value == MarkedCompleted(ref) || r.value == LostTheRace
      ensures r.Ok? && r.value.MarkedCompleted? ==> CompletedWith(id, repository.Look(id), r.value.refId)
    {
      hide SlotInv, Evidence, SlotRely, Grows, Delivered;
      ghost var s0 := repository.Look(id);
      ReceiptsAreEvidence(id, s0, task, ref);
      var active, _ := AssertActive(me, id, caller, rounds);
      ghost var s1 := repository.Look(id);
      GrowsOf(me, s0, s1);
      EvidenceStays(me, id, s0, s1, Some(ref));
      if !active { return Refused; }
      var latest := repository.Get(me, id, caller, repository.clock, rounds);
      ghost var s2 := repository.Look(id);
      RelyThenRely(me, id, s0, s1, s2);
      GrowsOf(me, s0, s2);
      EvidenceStays(me, id, s1, s2, Some(ref));
      if !latest.Ok? || repository.aborted { return Refused; }
      var moved := repository.Transition(me, id, caller, latest.value.revision, Completed, repository.clock,
          Some(Some(ref)), None, rounds);
      RelyThenRely(me, id, s0, s2, repository.Look(id));
      GrowsOf(me, s0, repository.Look(id));
      EvidenceStays(me, id, s2, repository.Look(id), Some(ref));
      if !moved.Ok? { return Refused; }
      r := Ok(if moved.value.Moved? then MarkedCompleted(ref) else LostTheRace);
    }
  }

  // ------------------------------------------------------------------ lemmas of the steps above

  /** The record after the write says what the write was for. */
  predicate Recorded(w: DispatchWrite, d: Dispatch) {
    match w
    case SetProviderTask(t) => d.providerTaskId == Some(t)
    case CancelDispatch(upstream) => d.dispatchCancelled && (upstream ==> d.upstreamRequested)
    case RevokeDispatch(reason) => d.dispatchCancelled && RevocationRank(reason) <= RevocationRank(d.sourceRevocation)
    case SetResult(ref) => d.resultArtifactRef == Some(ref)
    case FinishCleanup(ref) => d.resultCleanupDone <==> d.resultArtifactRef == Some(ref)
    case Acknowledge(a) => a ==> d.upstreamAcknowledged
  }

  lemma JustifiedCan(id: string, s: Slot, w: DispatchWrite)
    requires Justified(id, s, w)
    ensures s.job.Some? && CanWriteDispatch(id, s, w)
  {
  }

  lemma WriteIsRely(me: Pid, s: Slot, s': Slot)
    requires Grows(s, s') && s'.cells == s.cells && s'.opener == s.opener
    ensures SlotRely(me, s, s')
  {
  }

  predicate RecordedIn(s: Slot, kind: EffectKind, answer: string) {
    s.dispatch.Some? && (if kind == ProviderTaskCreate then s.dispatch.value.value.providerTaskId == Some(answer)
                         else s.dispatch.value.value.resultArtifactRef.Some?)
  }

  /** Durable evidence is evidence: a live job with the answer on its dispatch record has
      begun the call, and a recorded identifier is the one the provider gave. */
  predicate Proof(id: string, kind: EffectKind, s: Slot, answer: string) {
    && s.job.Some? && AsyncFx(id, kind) in s.cells && s.cells[AsyncFx(id, kind)].begun > 0
    && (kind == ProviderTaskCreate ==> s.submitted == Some(answer))
  }

  lemma AnswerProvesCall(me: Pid, id: string, kind: EffectKind, s: Slot, s': Slot, answer: string)
    requires kind == ProviderTaskCreate || kind == ArtifactWrite
    requires RecordedIn(s, kind, answer) && SlotRely(me, s, s') && SlotInv(id, s')
    requires s'.job.Some? && !Terminal(s'.job.value.value.status)
    ensures Proof(id, kind, s', answer)
  {
    hide Evidence;
  }

  lemma ProofStays(me: Pid, id: string, kind: EffectKind, s: Slot, s': Slot, answer: string)
    requires Proof(id, kind, s, answer) && SlotRely(me, s, s')
    ensures Proof(id, kind, s', answer)
  {
    BegunStays(me, s, s', AsyncFx(id, kind));
  }

  lemma ProofEnables(me: Pid, id: string, s: Slot, kind: EffectKind, revision: nat, answer: string, nowMs: int)
    requires (kind == ProviderTaskCreate || kind == ArtifactWrite)
    requires Proof(id, kind, s, answer) && NotSettledAt(s, AsyncFx(id, kind), revision)
    ensures var fx, a := AsyncFx(id, kind), Journalled(AsyncFx(id, kind), Resume(Note(answer)));
            && fx in s.cells
            && (s.cells[fx].record.revision == revision ==>
                  DocumentJobs.Enabled(me, id, s, a, nowMs)
                          && Delivered(DocumentJobs.Next(me, id, s, a, nowMs), fx, answer))
  {
  }

  lemma PublishedIsBegun(id: string, s: Slot, ref: string)
    requires SlotInv(id, s) && s.published.Some?
    ensures Justified(id, s, SetResult(ref))
  {
  }

  /** What an answered operation leaves behind: the call is over, and its answer is what
      really happened. */
  predicate OperationAnswered(me: Pid, id: string, s: Slot, kind: EffectKind, inflight: nat, answer: string) {
    var fx := AsyncFx(id, kind);
    && CallMade(me, s, fx, inflight)
    && (kind == ProviderTaskCreate ==> s.submitted == Some(answer))
    && (kind == ProviderTaskCancel ==>
          (answer == "acknowledged" && s.cells[fx].acks > 0) || answer == "not-acknowledged")
  }

  function Verdict(kind: EffectKind, answer: string): CellAction {
    Settle(if kind == ProviderTaskCancel && answer != "acknowledged" then Uncertain else Succeeded, Some(Note(answer)))
  }

  lemma AnswerIsMarkable(me: Pid, id: string, s: Slot, kind: EffectKind, inflight: nat, answer: string)
    requires OperationAnswered(me, id, s, kind, inflight, answer)
    ensures Markable(me, s, AsyncFx(id, kind), inflight, Verdict(kind, answer))
    ensures kind == ProviderTaskCancel ==> answer == "acknowledged" || answer == "not-acknowledged"
  {
  }

  lemma RecordedIsDelivered(me: Pid, id: string, s: Slot, kind: EffectKind, inflight: nat, answer: string, nowMs: int)
    requires Markable(me, s, AsyncFx(id, kind), inflight, Verdict(kind, answer))
    requires s.cells[AsyncFx(id, kind)].record.revision == inflight
    requires DocumentJobs.Enabled(me, id, s, Journalled(AsyncFx(id, kind), Verdict(kind, answer)), nowMs)
    requires kind == ProviderTaskCancel ==> answer == "acknowledged" || answer == "not-acknowledged"
    ensures Delivered(DocumentJobs.Next(me, id, s, Journalled(AsyncFx(id, kind), Verdict(kind, answer)), nowMs),
                      AsyncFx(id, kind), answer)
  {
    assert |"not-acknowledged"| != |"acknowledged"|;
  }

  lemma CallEnded(me: Pid, s: Slot, fx: EffectId, inflight: nat)
    requires SlotInv(fx.jobId, s) && CallReturned(me, s, fx, inflight) && s.cells[fx].begun > 0
    requires s.cells[fx].record.revision == inflight ==> !s.cells[fx].armed
    ensures CallMade(me, s, fx, inflight)
    ensures fx == AsyncFx(fx.jobId, ArtifactWrite) ==> forall ref :: Justified(fx.jobId, s, SetResult(ref))
  {
  }

  lemma ReceiptIsDelivered(id: string, s: Slot, kind: EffectKind, receipt: Receipt)
    requires SlotInv(id, s) && Has(s, AsyncFx(id, kind)) && s.cells[AsyncFx(id, kind)].Effect().receipt == Some(receipt)
    ensures receipt.Note? ==> Delivered(s, AsyncFx(id, kind), receipt.text)
  {
    assert |"not-acknowledged"| != |"acknowledged"|;
  }

  // ------------------------------------------------------------------ what callers may conclude

  datatype AsyncStatus = AsyncStatus(
    status: JobStatus, resultArtifactRef: Option<string>, dispatchCancelled: bool, upstreamRequested: bool,
    upstreamAcknowledged: bool, resultCleanupPending: bool, sourceRevocation: Revocation)

  /** What a status answer promises of the state it is given in and of the dispatch record
      it `read`: the job's own status; the record's own flags; cleanup is pending exactly if
      that record names a result that is due to be cleaned up; a completed job's result is
      backed by receipts; a claimed acknowledgement is one the provider gave; and nothing
      recorded before the call is missing from it. */
  predicate Truthful(id: string, before: Slot, read: Slot, s: Slot, t: AsyncStatus) {
    && s.job.Some? && s.dispatch.Some? && s.job.value.value.status == t.status
    && read.dispatch.Some? && ReadsOff(read.dispatch.value.value, t)
    && (t.status == Completed && t.resultArtifactRef.Some? ==> Evidence(id, s, t.resultArtifactRef))
    && (t.sourceRevocation != NotRevoked ==> t.resultArtifactRef == None && Terminal(t.status))
    && (t.upstreamAcknowledged ==>
          AsyncFx(id, ProviderTaskCancel) in s.cells && Settled(s.cells[AsyncFx(id, ProviderTaskCancel)])
          && s.cells[AsyncFx(id, ProviderTaskCancel)].acks > 0)
    && (before.dispatch.Some? ==>
          var d := before.dispatch.value.value;
          && (d.dispatchCancelled ==> t.dispatchCancelled) && (d.upstreamRequested ==> t.upstreamRequested)
          && (d.upstreamAcknowledged ==> t.upstreamAcknowledged)
          && RevocationRank(d.sourceRevocation) <= RevocationRank(t.sourceRevocation))
  }

  predicate ReadsOff(d: Dispatch, t: AsyncStatus) {
    && t.dispatchCancelled == d.dispatchCancelled && t.upstreamRequested == d.upstreamRequested
    && t.upstreamAcknowledged == d.upstreamAcknowledged && t.sourceRevocation == d.sourceRevocation
    && (t.resultCleanupPending <==> CleanupDue(t.status, d))
  }

  lemma StatusIsTruthful(me: Pid, id: string, s0: Slot, s1: Slot, s2: Slot, t: AsyncStatus)
    requires SlotInv(id, s1) && SlotInv(id, s2) && SlotRely(me, s0, s1) && SlotRely(me, s1, s2)
    requires s1.dispatch.Some? && s2.job.Some?
    requires var d, job := s1.dispatch.value.value, s2.job.value.value;
             && t.status == job.status && ReadsOff(d, t)
             && t.resultArtifactRef == if d.sourceRevocation == NotRevoked then job.resultArtifactRef else None
    ensures Truthful(id, s0, s1, s2, t)
  {
    hide Evidence;
    var fx := AsyncFx(id, ProviderTaskCancel);
    EntitlementsStay(me, s1, s2, fx, 0);
    if t.upstreamAcknowledged { CellAt(id, s2, fx); }
  }

  lemma TerminalStays(s: Slot, s': Slot)
    requires Grows(s, s') && s.job.Some? && Terminal(s.job.value.value.status)
    ensures s'.job.Some? && Terminal(s'.job.value.value.status)
    ensures s'.job.value.value.status == Cancelled ==> s.job.value.value.status == Cancelled
  {
  }

  predicate CancelOnRecord(s: Slot, upstream: bool) {
    s.dispatch.Some? && s.dispatch.value.value.dispatchCancelled
      && (upstream ==> s.dispatch.value.value.upstreamRequested)
  }

  lemma CancelIsOnRecord(s: Slot, s': Slot, upstream: bool)
    requires Grows(s, s') && CancelOnRecord(s, upstream)
    ensures CancelOnRecord(s', upstream)
  {
  }

  lemma CancelIsShown(id: string, s: Slot, s': Slot, t: AsyncStatus, upstream: bool)
    requires CancelOnRecord(s, upstream) && exists read :: Truthful(id, s, read, s', t)
    ensures t.dispatchCancelled && (upstream ==> t.upstreamRequested)
  {
  }

  lemma JobStays(s: Slot, s': Slot)
    requires Grows(s, s') && s.job.Some?
    ensures s'.job.Some?
  {
  }

  lemma CreatedStays(s0: Slot, s1: Slot, s: Slot, caller: Caller, created: Record<Job>, s2: Slot, s3: Slot)
    requires Grows(s0, s) && Grows(s1, s) && s1.dispatch.Some?
    requires s2.job == Some(created) && OwnedBy(created.value, caller) && Grows(s2, s3) && s1.job == s3.job
    ensures s.dispatch.Some? && s.job.Some? && OwnedBy(s.job.value.value, caller)
    ensures s.job.value.value.createdAt == created.value.createdAt
    ensures s0.dispatch.Some? ==> Climbs(s0.dispatch.value.value, s.dispatch.value.value)
  {
  }

  lemma OpenerStays(me: Pid, s: Slot, s': Slot)
    requires SlotRely(me, s, s') && s'.opener == Some(me)
    ensures s.opener == Some(me)
  {
  }

  lemma DispatchClimbs(s: Slot, s': Slot)
    requires Grows(s, s') && s.dispatch.Some?
    ensures s'.dispatch.Some? && Climbs(s.dispatch.value.value, s'.dispatch.value.value)
  {
  }

  lemma RevokedIsShown(me: Pid, id: string, s1: Slot, s2: Slot, s3: Slot, s: Slot, reason: Revocation, t: AsyncStatus)
    requires SlotRely(me, s2, s3) && reason != NotRevoked && exists read :: Truthful(id, s3, read, s, t)
    requires s2.dispatch.Some? && s2.dispatch.value.value.dispatchCancelled
             && RevocationRank(reason) <= RevocationRank(s2.dispatch.value.value.sourceRevocation)
    ensures Terminal(t.status) && t.dispatchCancelled && t.resultArtifactRef == None
            && RevocationRank(reason) <= RevocationRank(t.sourceRevocation)
  {
  }

  /** The job completed with this result, and may have expired since. */
  /** What may become of a job when the provider has answered this. */
  predicate LeadsTo(answer: PollAnswer, a: Attempt) {
    match answer
    case StillRunning => a == Waiting
    case ProviderFailed => a == MarkedFailed || a == LostTheRace
    case ProviderCompleted(acceptable) => acceptable && (a.MarkedCompleted? || a == LostTheRace)
  }

  /** An attempt that ended without an error is idle if the provider was not asked, and
      otherwise ended as its answer says, which is then in the history. */
  predicate AsAnswered(poll: Option<PollAnswer>, a: Attempt, asked: Option<Slot>) {
    && (asked.None? <==> a == Attempt.Idle)
    && (asked.Some? ==> poll.Some? && PolledAs(asked.value, poll.value) && LeadsTo(poll.value, a))
  }

  /** The source as it was when the job was created. */
  function SourceOf(s: Slot): Option<Snapshot> {
    if s.dispatch.Some? then Some(s.dispatch.value.value.source) else None
  }

  lemma SourceStays(s: Slot, seen: Dispatch, s': Slot, s'': Slot)
    requires DispatchSeen(s, seen) && Grows(s, s') && Grows(s', s'')
    ensures SourceOf(s'') == Some(seen.source)
  {
  }

  predicate Over(s: Slot) { s.job.Some? && Terminal(s.job.value.value.status) }

  lemma OverStays(s: Slot, s': Slot)
    requires Grows(s, s')
    ensures Over(s) ==> Over(s')
  {
  }

  lemma IsOver(s: Slot)
    ensures Over(s) <==> s.job.Some? && Terminal(s.job.value.value.status)
  {
  }

  /** What is done for a job that is over: how its cleanup ended, and what became of the
      cancellation at the provider, each with its moment. */
  datatype Chores = Chores(cleaned: Slot, done: CleanupDone, cancelled: Slot, cancellation: Option<Option<bool>>)

  ghost predicate ChoresDone(id: string, s0: Slot, c: Chores, s1: Slot, answers: CleanupAnswers, ports: Ports,
                             cancels: bool)
  {
    && Grows(s0, c.cleaned) && CleanupHolds(c.cleaned, answers, c.done)
    && Grows(c.cleaned, c.cancelled) && Grows(c.cancelled, s1)
    && (cancels ==> c.cancellation.Some? && CancelHolds(id, c.cancelled, ports, c.cancellation.value))
  }

  lemma ChoresFitIn(id: string, s0: Slot, s1: Slot, c: Chores, s2: Slot, s3: Slot, answers: CleanupAnswers,
          ports: Ports, cancels: bool)
    requires Grows(s0, s1) && ChoresDone(id, s1, c, s2, answers, ports, cancels) && Grows(s2, s3)
    ensures ChoresDone(id, s0, c, s3, answers, ports, cancels)
  {
    hide Grows, CleanupHolds, CancelHolds;
    GrowsTransitive(s0, s1, c.cleaned);
    GrowsTransitive(c.cancelled, s2, s3);
  }

  /** An attempt on a job that is over: the dispatch record it read during the call, and what
      it did for the job; a cancellation that record asks for is carried out. */
  datatype Rest = Rest(read: Dispatch, chores: Chores)

  ghost predicate Rested(id: string, s0: Slot, rest: Rest, s1: Slot, early: CleanupAnswers, ports: Ports) {
    && ChoresDone(id, s0, rest.chores, s1, early, ports,
                  rest.read.upstreamRequested && !rest.read.upstreamAcknowledged)
    && (s0.dispatch.Some? ==> Climbs(s0.dispatch.value.value, rest.read))
  }

  lemma IsRested(id: string, s0: Slot, rest: Rest, s1: Slot, early: CleanupAnswers, ports: Ports)
    requires ChoresDone(id, s0, rest.chores, s1, early, ports,
                        rest.read.upstreamRequested && !rest.read.upstreamAcknowledged)
    requires s0.dispatch.Some? ==> Climbs(s0.dispatch.value.value, rest.read)
    ensures Rested(id, s0, rest, s1, early, ports)
  {
  }

  lemma ReadDuringCall(me: Pid, s0: Slot, s1: Slot, s2: Slot)
    requires SlotRely(me, s0, s1) && SlotRely(me, s1, s2) && s1.dispatch.Some?
    ensures s0.dispatch.Some? ==> Climbs(s0.dispatch.value.value, s1.dispatch.value.value)
    ensures DispatchSeen(s2, s1.dispatch.value.value)
  {
  }

  predicate StillLive(s: Slot) { s.job.Some? && !Terminal(s.job.value.value.status) }

  lemma NothingAsked(poll: Option<PollAnswer>)
    ensures AsAnswered(poll, Attempt.Idle, None)
  {
  }

  lemma AskedHere(poll: Option<PollAnswer>, r: Reply<Attempt>, at: Slot, s: Slot)
    requires poll.Some? && PolledAs(at, poll.value) && (r.Ok? ==> LeadsTo(poll.value, r.value)) && StillLive(at)
    requires poll.value == StillRunning ==> s == at
    ensures r.Ok? ==> AsAnswered(poll, r.value, Some(at)) && r.value != Attempt.Idle
    ensures r == Ok(Waiting) ==> at == s && StillLive(s)
  {
  }

  lemma DeliveredIsSubmitted(id: string, s: Slot, task: string)
    requires SlotInv(id, s) && Delivered(s, AsyncFx(id, ProviderTaskCreate), task)
    ensures Has(s, AsyncFx(id, ProviderTaskCreate)) && s.submitted == Some(task)
  {
  }

  lemma PolledNow(me: Pid, id: string, s: Slot, task: string, answer: PollAnswer, nowMs: int)
    requires s.submitted == Some(task) && DocumentJobs.Enabled(me, id, s, Polled(Poll(task, answer)), nowMs)
    ensures PolledAs(DocumentJobs.Next(me, id, s, Polled(Poll(task, answer)), nowMs), answer)
  {
    var polls := s.polls + [Poll(task, answer)];
    assert polls[|polls| - 1] == Poll(task, answer);
  }

  lemma PolledStays(s: Slot, s': Slot, answer: PollAnswer)
    requires PolledAs(s, answer) && Grows(s, s')
    ensures PolledAs(s', answer)
  {
  }

  predicate CompletedWith(id: string, s: Slot, ref: string) {
    && s.job.Some? && s.job.value.value.resultArtifactRef == Some(ref)
    && (s.job.value.value.status == Completed || s.job.value.value.status == Expired)
    && Evidence(id, s, Some(ref))
  }

  lemma CompletedStays(id: string, s: Slot, s': Slot, ref: string)
    requires SlotInv(id, s) && CompletedWith(id, s, ref) && Grows(s, s')
    ensures CompletedWith(id, s', ref)
  {
    forall fx | Has(s, fx) && fx.kind != ProviderTaskCancel ensures fx in s'.cells
            && s'.cells[fx].record == s.cells[fx].record {
      CellAt(id, s, fx);
    }
  }

  lemma ReceiptsAreEvidence(id: string, s: Slot, task: string, ref: string)
    requires s.driver == ByRuntime
    requires Delivered(s, AsyncFx(id, ProviderTaskCreate), task) && Delivered(s, AsyncFx(id, ArtifactWrite), ref)
    requires PolledAs(s, ProviderCompleted(true))
    ensures Evidence(id, s, Some(ref))
  {
  }
}
