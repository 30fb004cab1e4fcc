/** `DurableDocumentExecutor` (src/core/durable-document-executor.ts): three journalled
    calls in order, then completion. The answers of the three ports are arguments; None
    is a port that throws. */
module DocumentExecutor {
  import opened DurableStore
  import Fx = Effects
  import opened Effects
  import opened DocumentJobs
  import opened DocumentJobRepository

  datatype Ports = Ports(createTask: Option<string>, paidCall: Option<string>, writeArtifact: Option<string>)

  class DurableDocumentExecutor {
    const repository: DurableDocumentJobRepository

    constructor(repository: DurableDocumentJobRepository)
      requires repository.driver == ByExecutor
      ensures this.repository == repository
    {
      this.repository := repository;
    }

    /** The caller's time never runs backwards within one execution. */
    method Now(last: int) returns (now: int)
      ensures now >= last && (now == last || now == repository.clock)
    {
      now := if repository.clock > last then repository.clock else last;
    }

    /** Returning means the effect has succeeded with the returned receipt, by this call
        or an earlier one; the call is made only under a claim of this worker's own. */
    method RunEffect(me: Pid, fx: EffectId, caller: Caller, last: int, answer: Option<string>, rounds: nat)
      returns (r: Reply<string>)
      requires repository.Valid() && fx.kind != ProviderTaskCancel && fx != AsyncFx(fx.jobId, ProviderTaskCreate)
      modifies repository
      ensures repository.Valid() && SlotInv(fx.jobId, repository.Look(fx.jobId))
      ensures Grows(old(repository.Look(fx.jobId)), repository.Look(fx.jobId))
      ensures r.Ok? ==> Has(repository.Look(fx.jobId), fx)
                        && repository.Look(fx.jobId).cells[fx].Effect().receipt == Some(Note(r.value))
    {
      hide SlotInv, Evidence, SlotRely;
      repository.LookInv(fx.jobId);
      GrowsRefl(repository.Look(fx.jobId));
      ghost var s0 := repository.Look(fx.jobId);
      if repository.aborted { return Refused; }
      var now := Now(last);
      var begun, _ := repository.BeginEffect(me, fx, caller, now, rounds);
      ghost var s1 := repository.Look(fx.jobId);
      match begun {
        case Ok(Replay(receipt)) =>
          return match receipt case Note(text) => Ok(text) case _ => Refused;
        case Ok(RunIt(revision)) =>
          if repository.aborted { return Refused; }
          now := Now(now);
          var inflight := repository.MarkEffect(me, fx, caller, revision, Arm, now, rounds);
          ghost var s2 := repository.Look(fx.jobId);
          GrowsTransitive(s0, s1, s2);
          if !inflight.Ok? { return Refused; }
          r := CallAndRecord(me, fx, caller, revision + 1, now, answer, rounds);
          GrowsTransitive(s0, s2, repository.Look(fx.jobId));
        case _ => return Refused;
      }
    }

    method CallAndRecord(me: Pid, fx: EffectId, caller: Caller, inflight: nat, last: int, answer: Option<string>,
            rounds: nat)
      returns (r: Reply<string>)
      requires repository.Valid() && fx.kind != ProviderTaskCancel && fx != AsyncFx(fx.jobId, ProviderTaskCreate)
      requires SlotInv(fx.jobId, repository.Look(fx.jobId)) && HoldsArmed(me, repository.Look(fx.jobId), fx, inflight)
      modifies repository
      ensures repository.Valid() && SlotInv(fx.jobId, repository.Look(fx.jobId))
      ensures Grows(old(repository.Look(fx.jobId)), repository.Look(fx.jobId))
      ensures r.Ok? ==> Has(repository.Look(fx.jobId), fx)
                        && repository.Look(fx.jobId).cells[fx].Effect().receipt == Some(Note(r.value))
    {
      hide SlotInv, Evidence, SlotRely;
      ghost var s0 := repository.Look(fx.jobId);
      CellAt(fx.jobId, s0, fx);
      var now := Now(last);
      if !repository.aborted {
        repository.CallUnder(me, fx, inflight, answer.Some?, now);
        ghost var s1 := repository.Look(fx.jobId);
        CellAt(fx.jobId, s1, fx);
        if answer.Some? && Bounded(answer.value, 512) {
          var receipt := Some(Note(answer.value));
          var recorded := repository.MarkEffect(me, fx, caller, inflight, Settle(Succeeded, receipt), now, rounds);
          GrowsTransitive(s0, s1, repository.Look(fx.jobId));
          if recorded.Ok? { return Ok(answer.value); }
        }
      } else {
        GrowsRefl(s0);
      }
      ghost var s2 := repository.Look(fx.jobId);
      var _ := repository.MarkEffect(me, fx, caller, inflight, Settle(Uncertain, None), now, rounds);
      GrowsTransitive(s0, s2, repository.Look(fx.jobId));
      r := Refused;
    }

    /** Returning a reference means the job is completed with it and all three receipts
        are on record; each call behind them ran at most once (`EachEffectBeginsAtMostOnce`). */
    method Execute(me: Pid, id: string, caller: Caller, nowMs: int, ports: Ports, rounds: nat)
      returns (r: Reply<string>)
      requires repository.Valid() && repository.driver == ByExecutor
      modifies repository
      ensures repository.Valid()
      ensures r.Ok? ==>
                var s := repository.Look(id);
                && s.job.Some? && s.job.value.value.status == Completed
                        && s.job.value.value.resultArtifactRef == Some(r.value)
                && Evidence(id, s, Some(r.value))
    {
      hide SlotInv, Evidence, SlotRely;
      if repository.aborted { return Refused; }
      var now := Now(nowMs);
      var read := repository.Get(me, id, caller, now, rounds);
      if !read.Ok? { return Refused; }
      var current := read.value;
      if current.value.status == Completed && current.value.resultArtifactRef.Some? {
        CompletedHasEvidence(id, repository.Look(id));
        return Ok(current.value.resultArtifactRef.value);
      }
      if current.value.status == Failed || current.value.status == Cancelled || current.value.status == Expired {
        return Refused;
      }
      if current.value.status != Running {
        now := Now(now);
        var running := repository.Transition(me, id, caller, current.revision, Running, now, None, None, rounds);
        if !(running.Ok? && running.value.Moved?) { return Refused; }
      }
      r := RunEffects(me, id, caller, now, ports, rounds);
    }

    method RunEffects(me: Pid, id: string, caller: Caller, last: int, ports: Ports, rounds: nat)
      returns (r: Reply<string>)
      requires repository.Valid() && repository.driver == ByExecutor
      modifies repository
      ensures repository.Valid()
      ensures r.Ok? ==>
                var s := repository.Look(id);
                && s.job.Some? && s.job.value.value.status == Completed
                        && s.job.value.value.resultArtifactRef == Some(r.value)
                && Evidence(id, s, Some(r.value))
    {
      hide SlotInv, SlotRely;
      var now := Now(last);
      var created := RunEffect(me, ExecFx(id, ProviderTaskCreate), caller, now, ports.createTask, rounds);
      if !created.Ok? { return Refused; }
      ghost var s1 := repository.Look(id);
      now := Now(now);
      var paid := RunEffect(me, ExecFx(id, PaidUpstreamCall), caller, now, ports.paidCall, rounds);
      if !paid.Ok? { return Refused; }
      ghost var s2 := repository.Look(id);
      now := Now(now);
      var written := RunEffect(me, ExecFx(id, ArtifactWrite), caller, now, ports.writeArtifact, rounds);
      if !written.Ok? { return Refused; }
      ReceiptStays(id, s1, s2, ExecFx(id, ProviderTaskCreate));
      ReceiptStays(id, s2, repository.Look(id), ExecFx(id, ProviderTaskCreate));
      ReceiptStays(id, s2, repository.Look(id), ExecFx(id, PaidUpstreamCall));
      assert Evidence(id, repository.Look(id), Some(written.value));
      r := Complete(me, id, caller, now, written.value, rounds);
    }

    method Complete(me: Pid, id: string, caller: Caller, last: int, artifactRef: string, rounds: nat)
      returns (r: Reply<string>)
      requires repository.Valid() && SlotInv(id, repository.Look(id))
              && Evidence(id, repository.Look(id), Some(artifactRef))
      modifies repository
      ensures repository.Valid()
      ensures r.Ok? ==>
                var s := repository.Look(id);
                && r.value == artifactRef && s.job.Some? && s.job.value.value.status == Completed
                && s.job.value.value.resultArtifactRef == Some(r.value) && Evidence(id, s, Some(r.value))
    {
      hide SlotInv, Evidence, SlotRely;
      if repository.aborted { return Refused; }
      ghost var s0 := repository.Look(id);
      var now := Now(last);
      var latest := repository.Get(me, id, caller, now, rounds);
      ghost var s1 := repository.Look(id);
      EvidenceStays(me, id, s0, s1, Some(artifactRef));
      if !latest.Ok? { return Refused; }
      if latest.value.value.status == Completed && latest.value.value.resultArtifactRef == Some(artifactRef) {
        return Ok(artifactRef);
      }
      now := Now(now);
      var completed := repository.Transition(me, id, caller, latest.value.revision, Completed, now,
          Some(Some(artifactRef)), None,
                                             rounds);
      EvidenceStays(me, id, s1, repository.Look(id), Some(artifactRef));
      if !(completed.Ok? && completed.value.Moved?) { return Refused; }
      r := Ok(artifactRef);
    }
  }

  lemma CompletedHasEvidence(id: string, s: Slot)
    requires SlotInv(id, s) && s.job.Some? && s.job.value.value.status == Completed
    ensures Evidence(id, s, s.job.value.value.resultArtifactRef)
  {
  }

  lemma ReceiptStays(id: string, s: Slot, s': Slot, fx: EffectId)
    requires SlotInv(id, s) && Grows(s, s') && Has(s, fx) && fx.kind != ProviderTaskCancel
    ensures Has(s', fx) && s'.cells[fx].record == s.cells[fx].record
  {
    CellAt(id, s, fx);
  }
}
