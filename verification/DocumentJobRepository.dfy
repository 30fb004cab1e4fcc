/** `DurableDocumentJobRepository` (src/core/durable-document-jobs.ts), run by worker
    `me` among others. The executor and the asynchronous runtime both work through this
    object: it holds the one store they share and its atomic steps. Between two of them
    the other workers may do anything `SlotRely` allows, and the clock may read anything. */
module DocumentJobRepository {
  import opened DurableStore
  import Fx = Effects
  import opened Effects
  import opened DocumentJobs

  datatype Caller = Caller(ownerId: string, credentialBinding: string)

  /** A call returns or throws; `Looping` is an unbounded retry loop cut off after the
      given number of rounds, which from outside is a worker that has not returned. */
  datatype Reply<+T> = Ok(value: T) | Refused | Unknown | Looping

  datatype TransitionOutcome = Moved(value: Record<Job>) | Conflicted(value: Record<Job>)

  datatype BeginOutcome = RunIt(revision: nat) | Replay(receipt: Receipt) | Blocked(status: EffectStatus)

  predicate OwnedBy(t: Job, caller: Caller) {
    t.ownerId == caller.ownerId && t.credentialBinding == caller.credentialBinding
  }

  predicate Bounded(s: string, max: nat) { 0 < |s| <= max }

  /** `r` was the job's record at some earlier moment. */
  predicate Seen(s: Slot, r: Record<Job>) { s.job.Some? && JobGrows(r, s.job.value) }

  lemma SeenGrows(s: Slot, s': Slot, r: Record<Job>)
    requires Seen(s, r) && Grows(s, s')
    ensures Seen(s', r)
  {
  }

  lemma CellAt(id: string, s: Slot, fx: EffectId)
    requires SlotInv(id, s) && fx in s.cells
    ensures Fx.Inv(fx, s.cells[fx])
  {
  }

  /** Effects still entitled to `me` after interference. */
  predicate HoldsClaim(me: Pid, s: Slot, fx: EffectId, revision: nat) {
    && s.job.Some? && fx in s.cells && s.cells[fx].record.revision == revision
    && s.cells[fx].holder == me && s.cells[fx].Status() == Claimed
  }

  predicate HoldsArmed(me: Pid, s: Slot, fx: EffectId, revision: nat) {
    && s.job.Some? && fx in s.cells && s.cells[fx].record.revision == revision
    && s.cells[fx].holder == me && s.cells[fx].armed && s.cells[fx].Status() == Inflight
  }

  /** `me` is inside its call. Meanwhile a worker with durable proof of the call may have
      settled the effect. */
  predicate InsideCall(me: Pid, s: Slot, fx: EffectId, revision: nat) {
    && s.job.Some? && fx in s.cells && s.cells[fx].record.revision >= revision
    && s.cells[fx].holder == me && s.cells[fx].open > 0 && s.cells[fx].begun > 0
    && (s.cells[fx].record.revision == revision ==> s.cells[fx].Status() == Inflight)
  }

  /** `me` has called, or decided not to, and has yet to record how it ended. Only a
      worker with durable proof of the call can have settled it meanwhile. */
  predicate CallReturned(me: Pid, s: Slot, fx: EffectId, revision: nat) {
    && s.job.Some? && fx in s.cells && s.cells[fx].record.revision >= revision
    && (s.cells[fx].record.revision == revision ==>
          s.cells[fx].holder == me && s.cells[fx].open == 0 && s.cells[fx].Status() == Inflight)
  }

  lemma EntitlementsStay(me: Pid, s: Slot, s': Slot, fx: EffectId, revision: nat)
    requires SlotRely(me, s, s')
    ensures HoldsClaim(me, s, fx, revision) ==> HoldsClaim(me, s', fx, revision)
    ensures HoldsArmed(me, s, fx, revision) ==> HoldsArmed(me, s', fx, revision)
    ensures InsideCall(me, s, fx, revision) ==> InsideCall(me, s', fx, revision)
    ensures CallReturned(me, s, fx, revision) ==>
              CallReturned(me, s', fx, revision)
                && (s'.cells[fx].record.revision == revision ==> s'.cells[fx] == s.cells[fx])
    ensures s.submitted.Some? ==> s'.submitted == s.submitted
    ensures fx in s.cells && Settled(s.cells[fx]) ==> fx in s'.cells && SameReceipt(s.cells[fx], s'.cells[fx])
  {
    assert Fx.Rely(me, At(s.cells, fx), At(s'.cells, fx));
  }

  class DurableDocumentJobRepository {
    var slots: map<string, Slot>
    var clock: int       // what the clock reads now
    var aborted: bool    // what the caller's abort signal reads now
    const driver: Driver

    function Look(id: string): Slot reads this { if id in slots then slots[id] else Empty(driver) }

    ghost predicate Valid() reads this {
      forall id | id in slots :: SlotInv(id, slots[id]) && slots[id].driver == driver
    }

    lemma LookInv(id: string)
      requires Valid()
      ensures SlotInv(id, Look(id))
    {
      EmptySlotInv(id, driver);
    }

    constructor(driver: Driver)
      ensures Valid() && slots == map[] && this.driver == driver
    {
      this.driver := driver;
      slots := map[];
      clock := 0;
      aborted := false;
    }

    // ---------------------------------------------------------------- atomic steps

    method Interfere(me: Pid, id: string)
      requires Valid()
      modifies this
      ensures Valid() && SlotInv(id, Look(id)) && SlotRely(me, old(Look(id)), Look(id))
    {
      EmptySlotInv(id, driver);
      SlotRelyRefl(me, Look(id));
    }

    method Step(me: Pid, id: string, a: Action, nowMs: int)
      requires Valid() && DocumentJobs.Enabled(me, id, Look(id), a, nowMs)
      modifies this`slots
      ensures Valid() && SlotInv(id, Look(id)) && Grows(old(Look(id)), Look(id))
      ensures slots == old(slots)[id := DocumentJobs.Next(me, id, old(Look(id)), a, nowMs)]
    {
      hide SlotInv;
      EmptySlotInv(id, driver);
      StepKeepsSlotInv(me, id, Look(id), a, nowMs);
      slots := slots[id := DocumentJobs.Next(me, id, Look(id), a, nowMs)];
    }

    method CasJob(me: Pid, id: string, expected: nat, next: Job, scanExpiry: Option<int>, nowMs: int, w: JobWrite)
      returns (r: CasResult<Job>)
      requires Valid() && SlotInv(id, Look(id))
      requires var s := Look(id); s.job.Some? && s.job.value.revision == expected ==>
                 && CanWriteJob(id, s, w, nowMs) && next == AfterJobWrite(s.job.value.value, w, nowMs)
                 && scanExpiry == ScanExpiry(s.job.value.value, w)
      modifies this`slots
      ensures Valid() && SlotInv(id, Look(id)) && Grows(old(Look(id)), Look(id))
      ensures var s, s' := old(Look(id)), Look(id);
              && (r.Missing? ==> s.job.None? && s' == s)
              && (r.Conflict? ==> s.job == Some(r.record) && r.record.revision != expected && s' == s)
              && (r.Updated? ==> s.job.Some? && s.job.value.revision == expected
                                 && DocumentJobs.Enabled(me, id, s, WriteJob(w), nowMs)
                                 && s' == DocumentJobs.Next(me, id, s, WriteJob(w), nowMs) && s'.job == Some(r.record))
    {
      hide SlotInv;
      var s := Look(id);
      if s.job.None? { return Missing; }
      if s.job.value.revision != expected { return Conflict(s.job.value); }
      StepKeepsSlotInv(me, id, s, WriteJob(w), nowMs);
      var record := Bump(s.job.value, next, nowMs, scanExpiry);
      slots := slots[id := s.(job := Some(record))];
      r := Updated(record);
    }

    method CreateDispatchIfAbsent(me: Pid, id: string, state: Dispatch, nowMs: int)
      requires Valid() && SlotInv(id, Look(id)) && Look(id).job.Some? && InitialDispatch(state)
      modifies this`slots
      ensures Valid() && SlotInv(id, Look(id)) && Grows(old(Look(id)), Look(id))
              && Look(id).cells == old(Look(id)).cells
      ensures Look(id).dispatch.Some? && Look(id).job == old(Look(id)).job
      ensures old(Look(id)).dispatch.Some? ==> Look(id) == old(Look(id))
      ensures old(Look(id)).dispatch.None? ==> Look(id).dispatch.value.value == state && Look(id).opener == Some(me)
    {
      hide SlotInv, Evidence;
      GrowsRefl(Look(id));
      if Look(id).dispatch.None? { Step(me, id, CreateDispatch(state), nowMs); }
    }

    method CasDispatch(me: Pid, id: string, expected: nat, next: Dispatch, nowMs: int, w: DispatchWrite)
      returns (r: CasResult<Dispatch>)
      requires Valid() && SlotInv(id, Look(id)) && Look(id).job.Some? && CanWriteDispatch(id, Look(id), w)
      requires var s := Look(id); s.dispatch.Some? && s.dispatch.value.revision == expected ==>
                 next == AfterDispatchWrite(s.dispatch.value.value, w)
      modifies this`slots
      ensures Valid() && SlotInv(id, Look(id)) && Grows(old(Look(id)), Look(id))
              && Look(id).cells == old(Look(id)).cells
      ensures Look(id).job == old(Look(id)).job && Look(id).opener == old(Look(id)).opener
      ensures !r.Updated? ==> Look(id) == old(Look(id))
      ensures r.Updated? ==> Look(id).dispatch == Some(r.record) && r.record.value == next
    {
      hide SlotInv, Evidence;
      GrowsRefl(Look(id));
      var s := Look(id);
      if s.dispatch.None? { return Missing; }
      if s.dispatch.value.revision != expected { return Conflict(s.dispatch.value); }
      Step(me, id, WriteDispatch(w), nowMs);
      r := Updated(Look(id).dispatch.value);
    }

    /** `effects.retry` of a cancellation, as one atomic step. */
    method RetryEffect(me: Pid, id: string, fx: EffectId, expected: nat, nowMs: int) returns (granted: bool)
      requires Valid() && SlotInv(id, Look(id)) && fx in Look(id).cells && Look(id).job.Some?
      requires fx == AsyncFx(id, ProviderTaskCancel)
      modifies this`slots
      ensures Valid() && SlotInv(id, Look(id)) && Grows(old(Look(id)), Look(id)) && fx in Look(id).cells
      ensures granted ==> HoldsClaim(me, Look(id), fx, expected + 1)
      ensures !granted ==> Look(id) == old(Look(id))
    {
      hide SlotInv, Evidence;
      GrowsRefl(Look(id));
      var current := Look(id).cells[fx].record;
      if current.revision != expected || !Retryable(current.value) { return false; }
      Step(me, id, Journalled(fx, Retry), nowMs);
      granted := true;
    }

    method ClaimEffect(me: Pid, id: string, fx: EffectId, nowMs: int) returns (r: ClaimResult)
      requires Valid() && SlotInv(id, Look(id)) && Look(id).job.Some? && fx.jobId == id
      modifies this`slots
      ensures Valid() && SlotInv(id, Look(id)) && Grows(old(Look(id)), Look(id)) && fx in Look(id).cells
      ensures Look(id).job == old(Look(id)).job && Look(id).dispatch == old(Look(id)).dispatch
      ensures r.effect == Look(id).cells[fx].Effect() && r.revision == Look(id).cells[fx].record.revision
      ensures r.ClaimGranted? ==> fx !in old(Look(id)).cells && HoldsClaim(me, Look(id), fx, r.revision)
      ensures r.ClaimExisting? ==> slots == old(slots)
    {
      hide SlotInv, Evidence;
      var s := Look(id);
      if fx in s.cells {
        SlotRelyRefl(me, s);
        GrowsRefl(s);
        return ClaimExisting(s.cells[fx].Effect(), s.cells[fx].record.revision);
      }
      Step(me, id, Journalled(fx, Claim), nowMs);
      r := ClaimGranted(Look(id).cells[fx].Effect(), 1);
    }

    /** `effects.transition`, as the one atomic step it amounts to
        (`Effects.DurableEffectJournal.Transition`). */
    method TransitionEffect(me: Pid, id: string, fx: EffectId, expected: nat, act: CellAction, nowMs: int)
      returns (written: bool)
      requires Valid() && SlotInv(id, Look(id)) && fx in Look(id).cells
      requires act.Arm? || act.Settle? || act.Resume?
      requires Look(id).cells[fx].record.revision == expected ==>
                 DocumentJobs.Enabled(me, id, Look(id), Journalled(fx, act), nowMs)
      modifies this`slots
      ensures Valid() && SlotInv(id, Look(id)) && Grows(old(Look(id)), Look(id))
      ensures var s, s' := old(Look(id)), Look(id);
              && (!written ==> s' == s && s.cells[fx].record.revision != expected)
              && (written ==> s.cells[fx].record.revision == expected
                              && DocumentJobs.Enabled(me, id, s, Journalled(fx, act), nowMs)
                              && s' == DocumentJobs.Next(me, id, s, Journalled(fx, act), nowMs))
    {
      hide SlotInv, Evidence;
      GrowsRefl(Look(id));
      if Look(id).cells[fx].record.revision != expected { return false; }
      Step(me, id, Journalled(fx, act), nowMs);
      written := true;
    }

    // ---------------------------------------------------------------- the repository

    method CreateIfAbsent(me: Pid, jobId: string, caller: Caller, idempotencyKey: string, fingerprint: string,
            nowMs: int, expiresAt: int)
      returns (r: Reply<Record<Job>>, reused: bool)
      requires Valid()
      modifies this
      ensures Valid() && Grows(old(Look(jobId)), Look(jobId))
      ensures Look(jobId).opener == Some(me) ==> old(Look(jobId)).opener == Some(me)
      ensures r.Ok? ==> Look(jobId).job == Some(r.value) && OwnedBy(r.value.value, caller)
                        && r.value.value.idempotencyKey == idempotencyKey
                                && r.value.value.requestFingerprint == fingerprint
    {
      hide SlotInv, Evidence;
      reused := false;
      if !Bounded(caller.ownerId, 256) || !Bounded(caller.credentialBinding, 256) || !Bounded(idempotencyKey, 256)
         || !Bounded(fingerprint, 512) || !SafeTime(nowMs) || !SafeTime(expiresAt) || expiresAt <= nowMs {
        r := Refused;
        return;
      }
      var job := Job(jobId, caller.ownerId, caller.credentialBinding, idempotencyKey, fingerprint, JobStatus.Created,
                     nowMs, nowMs, expiresAt, None, None);
      Interfere(me, jobId);
      if Look(jobId).job.Some? {
        reused := true;
        var value := Look(jobId).job.value;
        if !OwnedBy(value.value, caller) || value.value.idempotencyKey != idempotencyKey
           || value.value.requestFingerprint != fingerprint {
          r := Refused;
          return;
        }
        r := Ok(value);
        return;
      }
      Step(me, jobId, CreateJob(job), nowMs);
      r := Ok(Look(jobId).job.value);
    }

    /** Reads a job and materialises its expiry: what is returned is the current record,
        and it is expired or cancelled if its time has come. */
    method Get(me: Pid, id: string, caller: Caller, nowMs: int, rounds: nat) returns (r: Reply<Record<Job>>)
      requires Valid()
      modifies this
      ensures Valid() && SlotInv(id, Look(id)) && SlotRely(me, old(Look(id)), Look(id))
      ensures r.Ok? ==>
                && Look(id).job == Some(r.value) && OwnedBy(r.value.value, caller)
                && (nowMs < r.value.value.expiresAt || r.value.value.status == Expired
                    || r.value.value.status == Cancelled)
    {
      hide SlotInv, Evidence, SlotRely;
      LookInv(id);
      SlotRelyRefl(me, Look(id));
      if !Bounded(id, 256) || !SafeTime(nowMs) { return Refused; }
      for round := 0 to rounds
        invariant Valid() && SlotInv(id, Look(id)) && SlotRely(me, old(Look(id)), Look(id))
      {
        ghost var s0 := Look(id);
        Interfere(me, id);
        ghost var s1 := Look(id);
        RelyThenRely(me, id, old(Look(id)), s0, s1);
        if Look(id).job.None? { return Unknown; }
        var current := Look(id).job.value;
        if !OwnedBy(current.value, caller) { return Refused; }
        if nowMs < current.value.expiresAt || current.value.status == Expired || current.value.status == Cancelled {
          return Ok(current);
        }
        var expired := current.value.(status := Expired, updatedAt := nowMs);
        Interfere(me, id);
        ghost var s2 := Look(id);
        SeenStays(me, s1, s2, current);
        RelyThenRely(me, id, old(Look(id)), s1, s2);
        var result := CasJob(me, id, current.revision, expired, None, nowMs, Expire);
        RelyThenWrite(me, id, old(Look(id)), s2, Look(id));
        if result.Updated? { return Ok(result.record); }
        if result.Missing? { return Unknown; }
      }
      r := Looping;
    }

    /** A normal return means the job is terminal and was not made so by lazy expiry here. */
    method RevokeSource(me: Pid, id: string, caller: Caller, nowMs: int) returns (r: Reply<Record<Job>>)
      requires Valid()
      modifies this
      ensures Valid() && SlotInv(id, Look(id)) && SlotRely(me, old(Look(id)), Look(id))
      ensures r.Ok? ==>
                Look(id).job == Some(r.value) && Terminal(r.value.value.status) && OwnedBy(r.value.value, caller)
    {
      hide SlotInv, Evidence, SlotRely;
      LookInv(id);
      SlotRelyRefl(me, Look(id));
      if !Bounded(id, 256) || !SafeTime(nowMs) { return Refused; }
      for attempt := 0 to 16
        invariant Valid() && SlotInv(id, Look(id)) && SlotRely(me, old(Look(id)), Look(id))
      {
        ghost var s0 := Look(id);
        Interfere(me, id);
        ghost var s1 := Look(id);
        RelyThenRely(me, id, old(Look(id)), s0, s1);
        if Look(id).job.None? { return Unknown; }
        var current := Look(id).job.value;
        if !OwnedBy(current.value, caller) { return Refused; }
        if Terminal(current.value.status) { return Ok(current); }
        var job := current.value.(status := Cancelled, updatedAt := nowMs);
        Interfere(me, id);
        ghost var s2 := Look(id);
        SeenStays(me, s1, s2, current);
        RelyThenRely(me, id, old(Look(id)), s1, s2);
        var changed := CasJob(me, id, current.revision, job, None, nowMs, RevokeJob);
        RelyThenWrite(me, id, old(Look(id)), s2, Look(id));
        if changed.Updated? { return Ok(changed.record); }
        if changed.Missing? { return Unknown; }
      }
      r := Refused;
    }

    /** `assertTransition`. */
    predicate Allowed(from: JobStatus, to: JobStatus) { from != to && !Terminal(from) && Rank(to) >= Rank(from) }

    /** Moves the job from the very revision the caller names, or reports the conflict. */
    method Transition(me: Pid, id: string, caller: Caller, expected: nat, to: JobStatus, nowMs: int,
            result: Option<Option<string>>, error: Option<Option<string>>, rounds: nat)
      returns (r: Reply<TransitionOutcome>)
      requires Valid()
      requires to == Completed ==> result.Some? && Evidence(id, Look(id), result.value)
      requires MayFail(Look(id), to)
      modifies this
      ensures Valid() && SlotInv(id, Look(id)) && SlotRely(me, old(Look(id)), Look(id))
      ensures r.Ok? && r.value.Moved? ==>
                && Look(id).job == Some(r.value.value) && r.value.value.value.status == to
                && r.value.value.revision == expected + 1 && nowMs < r.value.value.value.expiresAt
                && (result.Some? ==> r.value.value.value.resultArtifactRef == result.value)
      ensures r.Ok? && r.value.Conflicted? ==> Seen(Look(id), r.value.value) && r.value.value.revision != expected
    {
      hide SlotInv, Evidence, SlotRely, Grows, JobGrows, Seen;
      LookInv(id);
      SlotRelyRefl(me, Look(id));
      if expected < 1 { return Refused; }
      var read := Get(me, id, caller, nowMs, rounds);
      ghost var s1 := Look(id);
      if !read.Ok? {
        return match read case Refused => Refused case Unknown => Unknown case _ => Looping;
      }
      var current := read.value;
      if current.revision != expected {
        SeenRefl(s1);
        return Ok(Conflicted(current));
      }
      if !Allowed(current.value.status, to) { return Refused; }
      var resultRef := if result.Some? then result.value else current.value.resultArtifactRef;
      if resultRef.Some? && !Bounded(resultRef.value, 512) { return Refused; }
      var sanitized := if error.Some? then error.value else current.value.sanitizedError;
      if sanitized.Some? && !Bounded(sanitized.value, 500) { return Refused; }
      EvidenceStays(me, id, old(Look(id)), s1, if result.Some? then result.value else None);
      r := SwapMoved(me, id, caller, current, to, nowMs, result, error);
      RelyThenRely(me, id, old(Look(id)), s1, Look(id));
    }

    /** The swap of a transition, on the revision that was read. */
    method SwapMoved(me: Pid, id: string, caller: Caller, current: Record<Job>, to: JobStatus, nowMs: int,
            result: Option<Option<string>>, error: Option<Option<string>>)
      returns (r: Reply<TransitionOutcome>)
      requires Valid() && SlotInv(id, Look(id)) && Look(id).job == Some(current)
      requires Allowed(current.value.status, to) && nowMs < current.value.expiresAt
      requires to == Completed ==> result.Some? && Evidence(id, Look(id), result.value)
      requires MayFail(Look(id), to)
      modifies this
      ensures Valid() && SlotInv(id, Look(id)) && SlotRely(me, old(Look(id)), Look(id))
      ensures r.Ok? && r.value.Moved? ==>
                && Look(id).job == Some(r.value.value) && r.value.value.value.status == to
                && r.value.value.revision == current.revision + 1 && nowMs < r.value.value.value.expiresAt
                && (result.Some? ==> r.value.value.value.resultArtifactRef == result.value)
      ensures r.Ok? && r.value.Conflicted? ==>
                Seen(Look(id), r.value.value) && r.value.value.revision != current.revision
    {
      hide SlotInv, Evidence, SlotRely, Grows, JobGrows, Seen;
      ghost var s1 := Look(id);
      var next := current.value.(status := to, updatedAt := nowMs,
        resultArtifactRef := if result.Some? then result.value else current.value.resultArtifactRef,
        sanitizedError := if error.Some? then error.value else current.value.sanitizedError);
      Interfere(me, id);
      ghost var s2 := Look(id);
      SeenRefl(s1);
      SeenStays(me, s1, s2, current);
      EvidenceStays(me, id, s1, s2, if result.Some? then result.value else None);
      SeenUnmoved(s2, current);
      var changed := CasJob(me, id, current.revision, next, Some(current.value.expiresAt), nowMs,
                            Move(to, result, error));
      RelyThenWrite(me, id, s1, s2, Look(id));
      match changed {
        case Updated(record) => r := Ok(Moved(record));
        case Missing => r := Unknown;
        case Conflict(record) =>
          if !OwnedBy(record.value, caller) { return Refused; }
          SeenRefl(Look(id));
          r := Ok(Conflicted(record));
      }
    }

    // ---------------------------------------------------------------- effects under a live job

    /** An effect is begun only for a job that was live at a moment of the call, `at`: the
        claim, a receipt to replay, or the status that blocks it. */
    method BeginEffect(me: Pid, fx: EffectId, caller: Caller, nowMs: int, rounds: nat)
      returns (r: Reply<BeginOutcome>, ghost at: Slot)
      requires Valid()
      modifies this
      ensures r.Ok? ==>
                && Grows(old(Look(fx.jobId)), at) && Grows(at, Look(fx.jobId)) && at.job.Some?
                && !Terminal(at.job.value.value.status) && OwnedBy(at.job.value.value, caller)
      ensures Valid() && SlotInv(fx.jobId, Look(fx.jobId)) && Grows(old(Look(fx.jobId)), Look(fx.jobId))
      ensures r.Ok? ==> fx in Look(fx.jobId).cells && Look(fx.jobId).job.Some?
      ensures r.Ok? && r.value.RunIt? ==> HoldsClaim(me, Look(fx.jobId), fx, r.value.revision)
      ensures r.Ok? && r.value.Replay? ==>
                Has(Look(fx.jobId), fx) && Look(fx.jobId).cells[fx].Effect().receipt == Some(r.value.receipt)
    {
      hide SlotInv, Evidence, SlotRely;
      var id := fx.jobId;
      var read := Get(me, id, caller, nowMs, rounds);
      ghost var s1 := Look(id);
      at := s1;
      GrowsOf(me, old(Look(id)), s1);
      if !read.Ok? {
        r := match read case Refused => Refused case Unknown => Unknown case _ => Looping;
        return;
      }
      if Terminal(read.value.value.status) { return Refused, at; }
      Interfere(me, id);
      ghost var s2 := Look(id);
      GrowsOf(me, s1, s2);
      GrowsTransitive(old(Look(id)), s1, s2);
      var claim := ClaimEffect(me, id, fx, nowMs);
      GrowsTransitive(old(Look(id)), s2, Look(id));
      GrowsTransitive(s1, s2, Look(id));
      if claim.ClaimGranted? { return Ok(RunIt(claim.revision)), at; }
      if claim.effect.status == Succeeded {
        if claim.effect.receipt.None? { return Refused, at; }
        return Ok(Replay(claim.effect.receipt.value)), at;
      }
      r := Ok(Blocked(claim.effect.status));
    }

    /** markEffectInflight, markEffectSucceeded and markEffectUncertain: refused for a
        terminal job, otherwise the journal transition. */
    method MarkEffect(me: Pid, fx: EffectId, caller: Caller, expected: nat, act: CellAction, nowMs: int, rounds: nat)
      returns (r: Reply<()>)
      requires Valid()
      requires Markable(me, Look(fx.jobId), fx, expected, act)
      modifies this
      ensures Valid() && SlotInv(fx.jobId, Look(fx.jobId)) && Grows(old(Look(fx.jobId)), Look(fx.jobId))
      ensures r.Ok? && act.Arm? ==> HoldsArmed(me, Look(fx.jobId), fx, expected + 1)
      ensures r.Ok? && act.Settle? && act.status == Succeeded ==>
                Has(Look(fx.jobId), fx) && Look(fx.jobId).cells[fx].Effect().receipt == act.receipt
      ensures !r.Ok? && act.Settle? ==>
                CallReturned(me, Look(fx.jobId), fx, expected)
                        && Look(fx.jobId).cells[fx].begun >= old(Look(fx.jobId)).cells[fx].begun
    {
      hide SlotInv, Evidence, SlotRely, Grows, HoldsClaim, HoldsArmed, CallReturned, MaySettle, DocumentJobs.Enabled,
           DocumentJobs.Next;
      var id := fx.jobId;
      ghost var s0 := Look(id);
      var read := Get(me, id, caller, nowMs, rounds);
      ghost var s1 := Look(id);
      GrowsOf(me, s0, s1);
      MarkableStays(me, s0, s1, fx, expected, act);
      if !read.Ok? {
        return match read case Refused => Refused case Unknown => Unknown case _ => Looping;
      }
      if Terminal(read.value.value.status) { return Refused; }
      Interfere(me, id);
      ghost var s2 := Look(id);
      GrowsOf(me, s1, s2);
      GrowsTransitive(s0, s1, s2);
      MarkableStays(me, s1, s2, fx, expected, act);
      MarkableIsEnabled(me, s2, fx, expected, act, nowMs);
      var written := TransitionEffect(me, id, fx, expected, act, nowMs);
      if written { MarkedEffect(me, s2, fx, expected, act, nowMs); }
      GrowsRefl(s2);
      GrowsTransitive(s0, s2, Look(id));
      r := if written then Ok(()) else Refused;
    }

    /** A call of an armed effect that is not the asynchronous submission. */
    method CallUnder(me: Pid, fx: EffectId, revision: nat, answered: bool, nowMs: int)
      requires Valid() && SlotInv(fx.jobId, Look(fx.jobId)) && HoldsArmed(me, Look(fx.jobId), fx, revision)
      requires answered ==> fx != AsyncFx(fx.jobId, ProviderTaskCreate)
      modifies this
      ensures Valid() && SlotInv(fx.jobId, Look(fx.jobId)) && Grows(old(Look(fx.jobId)), Look(fx.jobId))
      ensures CallReturned(me, Look(fx.jobId), fx, revision) && Look(fx.jobId).cells[fx].begun > 0
      ensures answered ==> Look(fx.jobId).cells[fx].acks > 0
      ensures !Look(fx.jobId).cells[fx].armed
    {
      hide SlotInv, Evidence, SlotRely, Grows, InsideCall, HoldsArmed, CallReturned;
      var id := fx.jobId;
      ghost var s0 := Look(id);
      BeginCall(me, fx, revision, nowMs);
      ghost var s1 := Look(id);
      Interfere(me, id);
      ghost var s2 := Look(id);
      GrowsOf(me, s1, s2);
      EntitlementsStay(me, s1, s2, fx, revision);
      GrowsTransitive(s0, s1, s2);
      EndCall(me, fx, revision, answered, nowMs);
      GrowsTransitive(s0, s2, Look(id));
    }

    method EndCall(me: Pid, fx: EffectId, revision: nat, answered: bool, nowMs: int)
      requires Valid() && SlotInv(fx.jobId, Look(fx.jobId)) && InsideCall(me, Look(fx.jobId), fx, revision)
      requires answered ==> fx != AsyncFx(fx.jobId, ProviderTaskCreate)
      modifies this`slots
      ensures Valid() && SlotInv(fx.jobId, Look(fx.jobId)) && Grows(old(Look(fx.jobId)), Look(fx.jobId))
      ensures CallReturned(me, Look(fx.jobId), fx, revision) && Look(fx.jobId).cells[fx].begun > 0
      ensures answered ==> Look(fx.jobId).cells[fx].acks > 0
      ensures !Look(fx.jobId).cells[fx].armed && Look(fx.jobId).published == old(Look(fx.jobId)).published
    {
      hide SlotInv, Evidence, SlotRely, Grows;
      CellAt(fx.jobId, Look(fx.jobId), fx);
      Step(me, fx.jobId, Journalled(fx, End(answered)), nowMs);
    }

    /** The asynchronous submission, answered with an identifier. */
    method CallSubmission(me: Pid, fx: EffectId, revision: nat, submitted: string, nowMs: int)
      requires Valid() && SlotInv(fx.jobId, Look(fx.jobId)) && HoldsArmed(me, Look(fx.jobId), fx, revision)
      requires fx == AsyncFx(fx.jobId, ProviderTaskCreate)
      modifies this
      ensures Valid() && SlotInv(fx.jobId, Look(fx.jobId)) && Grows(old(Look(fx.jobId)), Look(fx.jobId))
      ensures CallReturned(me, Look(fx.jobId), fx, revision) && Look(fx.jobId).cells[fx].begun > 0
              && !Look(fx.jobId).cells[fx].armed
      ensures Look(fx.jobId).job.Some? && Look(fx.jobId).submitted == Some(submitted)
    {
      hide SlotInv, Evidence, SlotRely, Grows, InsideCall, HoldsArmed, CallReturned;
      var id := fx.jobId;
      ghost var s0 := Look(id);
      BeginCall(me, fx, revision, nowMs);
      ghost var s1 := Look(id);
      Interfere(me, id);
      ghost var s2 := Look(id);
      GrowsOf(me, s1, s2);
      EntitlementsStay(me, s1, s2, fx, revision);
      CallingCanEnd(me, s2, fx, revision);
      Step(me, id, Submitted(submitted), nowMs);
      AfterSubmission(me, s2, fx, revision, submitted, nowMs);
      GrowsTransitive(s0, s1, s2);
      GrowsTransitive(s0, s2, Look(id));
    }

    /** The artifact write: the port may store the result whether or not it then answers. */
    method CallWrite(me: Pid, fx: EffectId, revision: nat, stored: Option<string>, answered: bool, nowMs: int)
      requires Valid() && SlotInv(fx.jobId, Look(fx.jobId)) && HoldsArmed(me, Look(fx.jobId), fx, revision)
      requires fx == AsyncFx(fx.jobId, ArtifactWrite)
      modifies this
      ensures Valid() && SlotInv(fx.jobId, Look(fx.jobId)) && Grows(old(Look(fx.jobId)), Look(fx.jobId))
      ensures CallReturned(me, Look(fx.jobId), fx, revision) && Look(fx.jobId).cells[fx].begun > 0
              && !Look(fx.jobId).cells[fx].armed
      ensures stored.Some? ==> Look(fx.jobId).published.Some?
    {
      hide SlotInv, Evidence, SlotRely, Grows, InsideCall, HoldsArmed, CallReturned;
      var id := fx.jobId;
      ghost var s0 := Look(id);
      BeginCall(me, fx, revision, nowMs);
      ghost var s1 := Look(id);
      Interfere(me, id);
      ghost var s2 := Look(id);
      GrowsOf(me, s1, s2);
      GrowsTransitive(s0, s1, s2);
      EntitlementsStay(me, s1, s2, fx, revision);
      if stored.Some? {
        CallingCanEnd(me, s2, fx, revision);
        Step(me, id, Publish(stored.value), nowMs);
        PublishKeepsCalling(me, s2, fx, revision, Look(id));
        GrowsTransitive(s0, s2, Look(id));
        ghost var s3 := Look(id);
        Interfere(me, id);
        GrowsOf(me, s3, Look(id));
        GrowsTransitive(s0, s3, Look(id));
        PublishedStays(me, s3, Look(id));
        EntitlementsStay(me, s3, Look(id), fx, revision);
      }
      ghost var s4 := Look(id);
      CallingCanEnd(me, s4, fx, revision);
      EndCall(me, fx, revision, answered, nowMs);
      GrowsTransitive(s0, s4, Look(id));
    }

    method BeginCall(me: Pid, fx: EffectId, revision: nat, nowMs: int)
      requires Valid() && SlotInv(fx.jobId, Look(fx.jobId)) && HoldsArmed(me, Look(fx.jobId), fx, revision)
      modifies this
      ensures Valid() && SlotInv(fx.jobId, Look(fx.jobId)) && Grows(old(Look(fx.jobId)), Look(fx.jobId))
      ensures InsideCall(me, Look(fx.jobId), fx, revision)
    {
      hide SlotInv, Evidence, SlotRely;
      var id := fx.jobId;
      ghost var s0 := Look(id);
      Interfere(me, id);
      ghost var s1 := Look(id);
      GrowsOf(me, s0, s1);
      EntitlementsStay(me, s0, s1, fx, revision);
      CellAt(id, s1, fx);
      Step(me, id, Journalled(fx, Begin), nowMs);
      GrowsTransitive(s0, s1, Look(id));
    }
  }

  lemma CallingCanEnd(me: Pid, s: Slot, fx: EffectId, revision: nat)
    requires SlotInv(fx.jobId, s) && InsideCall(me, s, fx, revision)
    ensures s.job.Some? && fx in s.cells && !s.cells[fx].armed
    ensures forall acked :: Fx.Enabled(me, fx, At(s.cells, fx), End(acked))
  {
    CellAt(fx.jobId, s, fx);
  }

  lemma AfterSubmission(me: Pid, s: Slot, fx: EffectId, revision: nat, submitted: string, nowMs: int)
    requires SlotInv(fx.jobId, s) && InsideCall(me, s, fx, revision) && fx == AsyncFx(fx.jobId, ProviderTaskCreate)
    requires DocumentJobs.Enabled(me, fx.jobId, s, Submitted(submitted), nowMs)
    ensures var s' := DocumentJobs.Next(me, fx.jobId, s, Submitted(submitted), nowMs);
            && CallReturned(me, s', fx, revision) && s'.cells[fx].begun > 0 && !s'.cells[fx].armed
            && s'.job.Some? && s'.submitted == Some(submitted)
  {
    CellAt(fx.jobId, s, fx);
  }

  lemma PublishKeepsCalling(me: Pid, s: Slot, fx: EffectId, revision: nat, s': Slot)
    requires InsideCall(me, s, fx, revision) && s'.cells == s.cells && s'.job == s.job
    ensures InsideCall(me, s', fx, revision)
  {
  }

  lemma PublishedStays(me: Pid, s: Slot, s': Slot)
    requires SlotRely(me, s, s') && s.published.Some?
    ensures s'.published.Some?
  {
  }

  lemma GrowsRefl(s: Slot)
    ensures Grows(s, s)
  {
  }

  lemma RelyThenRely(me: Pid, id: string, a: Slot, b: Slot, c: Slot)
    requires SlotInv(id, a) && SlotInv(id, b) && SlotInv(id, c) && SlotRely(me, a, b) && SlotRely(me, b, c)
    ensures SlotRely(me, a, c)
  {
    SlotRelyTransitive(me, id, a, b, c);
  }

  /** A write to the job or dispatch record alone is within `SlotRely` of its writer too. */
  lemma RelyThenWrite(me: Pid, id: string, a: Slot, b: Slot, c: Slot)
    requires SlotInv(id, a) && SlotInv(id, b) && SlotInv(id, c) && SlotRely(me, a, b) && Grows(b, c)
    requires c.cells == b.cells && c.opener == b.opener
    ensures SlotRely(me, a, c)
  {
    assert SlotRely(me, b, c);
    SlotRelyTransitive(me, id, a, b, c);
  }

  lemma SeenStays(me: Pid, s: Slot, s': Slot, r: Record<Job>)
    requires Seen(s, r) && SlotRely(me, s, s')
    ensures Seen(s', r)
  {
  }

  lemma SeenUnmoved(s: Slot, r: Record<Job>)
    requires Seen(s, r)
    ensures s.job.Some? && (s.job.value.revision == r.revision ==> s.job.value == r)
  {
  }

  lemma SeenRefl(s: Slot)
    requires s.job.Some?
    ensures Seen(s, s.job.value)
  {
  }

  lemma GrowsOf(me: Pid, s: Slot, s': Slot)
    requires SlotRely(me, s, s')
    ensures Grows(s, s')
  {
  }

  lemma BegunStays(me: Pid, s: Slot, s': Slot, fx: EffectId)
    requires SlotRely(me, s, s')
    ensures fx in s.cells ==>
              fx in s'.cells && s'.cells[fx].begun >= s.cells[fx].begun && s'.cells[fx].acks >= s.cells[fx].acks
  {
    assert Fx.Rely(me, At(s.cells, fx), At(s'.cells, fx));
  }

  /** A worker may record success only of a call it made, with that call's receipt. */
  predicate MaySettle(fx: EffectId, s: Slot, act: CellAction)
    requires fx in s.cells && act.Settle?
  {
    act.status == Uncertain ||
    (act.status == Succeeded && act.receipt.Some? && s.cells[fx].begun > 0 && !s.cells[fx].armed
     && (fx.kind == ProviderTaskCancel && act.receipt != NOT_ACKNOWLEDGED ==> s.cells[fx].acks > 0)
     && (fx == AsyncFx(fx.jobId, ProviderTaskCreate) ==>
           s.submitted.Some? && act.receipt == Some(Note(s.submitted.value))))
  }

  predicate Markable(me: Pid, s: Slot, fx: EffectId, revision: nat, act: CellAction) {
    || (act.Arm? && HoldsClaim(me, s, fx, revision))
    || (act.Settle? && CallReturned(me, s, fx, revision)
        && (s.cells[fx].record.revision == revision ==> MaySettle(fx, s, act)))
  }

  lemma MarkableStays(me: Pid, s: Slot, s': Slot, fx: EffectId, revision: nat, act: CellAction)
    requires SlotRely(me, s, s') && Markable(me, s, fx, revision, act)
    ensures Markable(me, s', fx, revision, act) && s'.cells[fx].begun >= s.cells[fx].begun
  {
    EntitlementsStay(me, s, s', fx, revision);
    BegunStays(me, s, s', fx);
  }

  lemma MarkableIsEnabled(me: Pid, s: Slot, fx: EffectId, revision: nat, act: CellAction, nowMs: int)
    requires Markable(me, s, fx, revision, act)
    ensures fx in s.cells && (act.Arm? || act.Settle?)
    ensures s.cells[fx].record.revision == revision ==>
              DocumentJobs.Enabled(me, fx.jobId, s, Journalled(fx, act), nowMs)
    ensures act.Settle? ==> CallReturned(me, s, fx, revision)
  {
  }

  lemma MarkedEffect(me: Pid, s: Slot, fx: EffectId, revision: nat, act: CellAction, nowMs: int)
    requires Markable(me, s, fx, revision, act) && DocumentJobs.Enabled(me, fx.jobId, s, Journalled(fx, act), nowMs)
    requires s.cells[fx].record.revision == revision
    ensures var s' := DocumentJobs.Next(me, fx.jobId, s, Journalled(fx, act), nowMs);
            && (act.Arm? ==> HoldsArmed(me, s', fx, revision + 1))
            && (act.Settle? && act.status == Succeeded ==> Has(s', fx) && s'.cells[fx].Effect().receipt == act.receipt)
  {
  }

  /** Receipts on record stay on record. */
  lemma EvidenceStays(me: Pid, id: string, s: Slot, s': Slot, result: Option<string>)
    requires SlotInv(id, s) && SlotRely(me, s, s')
    ensures Evidence(id, s, result) ==> Evidence(id, s', result)
    ensures forall to :: MayFail(s, to) ==> MayFail(s', to)
  {
    forall fx | Has(s, fx) && fx.kind != ProviderTaskCancel ensures fx in s'.cells
            && s'.cells[fx].record == s.cells[fx].record {
      assert Fx.Inv(fx, s.cells[fx]) && Settled(s.cells[fx]);
      assert Fx.Rely(me, At(s.cells, fx), At(s'.cells, fx));
    }
  }
}
