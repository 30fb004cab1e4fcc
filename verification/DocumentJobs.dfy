/** Document jobs as a protocol of atomic steps on one job: the job record
    (src/core/durable-document-jobs.ts), the dispatch record the asynchronous runtime
    keeps beside it (src/core/document-async-runtime.ts), the effect journal, and the
    identifier the provider really answered. A job is driven either by the executor
    (src/core/durable-document-executor.ts) or by the asynchronous runtime. */
module DocumentJobs {
  import opened DurableStore
  import Fx = Effects
  import opened Effects

  // ------------------------------------------------------------------ records

  datatype JobStatus = Created | Pending | Running | Completed | Failed | Cancelled | Expired

  datatype Job = Job(
    jobId: string, ownerId: string, credentialBinding: string, idempotencyKey: string, requestFingerprint: string,
    status: JobStatus, createdAt: int, updatedAt: int, expiresAt: int,
    resultArtifactRef: Option<string>, sanitizedError: Option<string>)

  predicate Terminal(s: JobStatus) { s == Completed || s == Failed || s == Cancelled || s == Expired }

  function Rank(s: JobStatus): nat {
    match s
    case Created => 0
    case Pending => 1
    case Running => 2
    case _ => 3
  }

  datatype Snapshot = Snapshot(refId: string, contentHash: string, byteSize: int, expiresAt: int)

  datatype Policy = Policy(absoluteDeadlineMs: int, totalExecutionBudgetMs: int, perAttemptDeadlineMs: int,
                           maxInputBytes: int, maxOutputBytes: int)

  datatype Revocation = NotRevoked | SourceExpired | SourceDeleted

  datatype Dispatch = Dispatch(
    source: Snapshot, providerId: string, policy: Policy, budgetEndsAt: int, providerTaskId: Option<string>,
    dispatchCancelled: bool, upstreamRequested: bool, upstreamAcknowledged: bool,
    resultArtifactRef: Option<string>, resultCleanupDone: bool, sourceRevocation: Revocation)

  // ------------------------------------------------------------------ writes

  datatype JobWrite =
    | Expire                                                                          // lazy expiry in get
    | RevokeJob                                                                       // source authority revoked
    | Move(to: JobStatus, result: Option<Option<string>>, error: Option<Option<string>>)  // transition

  function AfterJobWrite(t: Job, w: JobWrite, nowMs: int): Job {
    match w
    case Expire => t.(status := Expired, updatedAt := nowMs)
    case RevokeJob => t.(status := Cancelled, updatedAt := nowMs)
    case Move(to, result, error) =>
      t.(status := to, updatedAt := nowMs,
         resultArtifactRef := if result.Some? then result.value else t.resultArtifactRef,
         sanitizedError := if error.Some? then error.value else t.sanitizedError)
  }

  /** The scan expiry is cleared once expiry or revocation has been materialised. */
  function ScanExpiry(t: Job, w: JobWrite): Option<int> { if w.Move? then Some(t.expiresAt) else None }

  datatype DispatchWrite =
    | SetProviderTask(providerTaskId: string)
    | CancelDispatch(upstream: bool)
    | RevokeDispatch(reason: Revocation)
    | SetResult(resultRef: string)
    | FinishCleanup(cleaned: string)
    | Acknowledge(acknowledged: bool)

  function AfterDispatchWrite(d: Dispatch, w: DispatchWrite): Dispatch {
    match w
    case SetProviderTask(id) => d.(providerTaskId := Some(id))
    case CancelDispatch(upstream) => d.(dispatchCancelled := true, upstreamRequested := d.upstreamRequested || upstream)
    case RevokeDispatch(reason) =>
      d.(dispatchCancelled := true,
         sourceRevocation := if d.sourceRevocation == SourceDeleted then SourceDeleted else reason)
    case SetResult(ref) => d.(resultArtifactRef := Some(ref))
    case FinishCleanup(ref) => d.(resultCleanupDone := d.resultArtifactRef == Some(ref))
    case Acknowledge(a) => d.(upstreamAcknowledged := d.upstreamAcknowledged || a)
  }

  // ------------------------------------------------------------------ one job and its history

  datatype Driver = ByExecutor | ByRuntime

  /** What the provider says of a submitted task; a completed one is acceptable if its
      envelope is well formed, of this source and within the limits. */
  datatype PollAnswer = StillRunning | ProviderFailed | ProviderCompleted(acceptable: bool)

  datatype Poll = Poll(providerTaskId: string, answer: PollAnswer)

  /** `opener` is the worker that created the dispatch record, `submitted` the identifier
      provider.create answered, once it has, `published` the reference under which the
      artifact port holds a result, once it does, and `polls` what provider.poll answered. */
  datatype Slot = Slot(
    driver: Driver, job: Option<Record<Job>>, dispatch: Option<Record<Dispatch>>, cells: Journal, opener: Option<Pid>,
    submitted: Option<string>, published: Option<string>, polls: seq<Poll>)

  function Empty(d: Driver): Slot { Slot(d, None, None, map[], None, None, None, []) }

  function AsyncFx(id: string, kind: EffectKind): EffectId { EffectId(id, kind, Named("document-async-v1")) }

  function ExecFx(id: string, kind: EffectKind): EffectId {
    EffectId(id, kind, Named(if kind == ProviderTaskCreate then "document-execution-v1:provider"
                             else if kind == PaidUpstreamCall then "document-execution-v1:paid"
                             else "document-execution-v1:artifact"))
  }

  predicate Has(s: Slot, fx: EffectId) { fx in s.cells && s.cells[fx].Status() == Succeeded }

  /** What must have been recorded before a job may complete with `result`: every
      receipt, the result is the receipt of the one artifact write, and the asynchronous
      runtime's provider answered that its task completed. */
  predicate Evidence(id: string, s: Slot, result: Option<string>) {
    match s.driver
    case ByExecutor =>
      && Has(s, ExecFx(id, ProviderTaskCreate)) && Has(s, ExecFx(id, PaidUpstreamCall))
              && Has(s, ExecFx(id, ArtifactWrite))
      && result.Some? && s.cells[ExecFx(id, ArtifactWrite)].Effect().receipt == Some(Note(result.value))
    case ByRuntime =>
      && Has(s, AsyncFx(id, ProviderTaskCreate)) && Has(s, AsyncFx(id, ArtifactWrite))
      && result.Some? && s.cells[AsyncFx(id, ArtifactWrite)].Effect().receipt == Some(Note(result.value))
      && PolledAs(s, ProviderCompleted(true))
  }

  /** A poll of the submitted task answered this. */
  predicate PolledAs(s: Slot, answer: PollAnswer) {
    s.submitted.Some? && Poll(s.submitted.value, answer) in s.polls
  }

  datatype Action =
    | CreateJob(initial: Job)
    | CreateDispatch(state: Dispatch)
    | WriteJob(change: JobWrite)
    | WriteDispatch(mutation: DispatchWrite)
    | Journalled(fx: EffectId, act: CellAction)
    | Submitted(providerTaskId: string)     // provider.create returns an identifier
    | Polled(poll: Poll)                    // provider.poll answers
    | Publish(artifact: string)             // the artifact port stores the result, inside writeResult

  predicate InitialJob(id: string, t: Job) {
    t.jobId == id && t.status == JobStatus.Created && t.resultArtifactRef == None
  }

  predicate InitialDispatch(d: Dispatch) {
    && d.providerTaskId == None && !d.dispatchCancelled && !d.upstreamRequested && !d.upstreamAcknowledged
    && d.resultArtifactRef == None && !d.resultCleanupDone && d.sourceRevocation == NotRevoked
  }

  predicate CanWriteJob(id: string, s: Slot, w: JobWrite, nowMs: int)
    requires s.job.Some?
  {
    var t := s.job.value.value;
    match w
    case Expire => nowMs >= t.expiresAt && t.status != Expired && t.status != Cancelled
    case RevokeJob => !Terminal(t.status)
    case Move(to, result, _) =>
      && !Terminal(t.status) && to != t.status && Rank(to) >= Rank(t.status) && nowMs < t.expiresAt
      && (to == Completed ==> Evidence(id, s, AfterJobWrite(t, w, nowMs).resultArtifactRef))
      && MayFail(s, to)
  }

  /** The runtime fails a job only when the provider says that its task failed. */
  predicate MayFail(s: Slot, to: JobStatus) {
    to == JobStatus.Failed && s.driver == ByRuntime ==> PolledAs(s, ProviderFailed)
  }

  predicate WriteBegun(id: string, s: Slot) {
    AsyncFx(id, ArtifactWrite) in s.cells && s.cells[AsyncFx(id, ArtifactWrite)].begun > 0
  }

  predicate CanWriteDispatch(id: string, s: Slot, w: DispatchWrite)
    requires s.job.Some?
  {
    match w
    case SetProviderTask(t) => s.submitted == Some(t)
    case RevokeDispatch(reason) => reason != NotRevoked && Terminal(s.job.value.value.status)
    case SetResult(_) => Terminal(s.job.value.value.status) || WriteBegun(id, s)
    case Acknowledge(a) =>
      a ==> AsyncFx(id, ProviderTaskCancel) in s.cells && Settled(s.cells[AsyncFx(id, ProviderTaskCancel)])
    case _ => true
  }

  predicate Enabled(p: Pid, id: string, s: Slot, a: Action, nowMs: int) {
    match a
    case CreateJob(t) => s.job.None? && InitialJob(id, t)
    case CreateDispatch(d) => s.job.Some? && s.dispatch.None? && InitialDispatch(d)
    case WriteJob(w) => s.job.Some? && CanWriteJob(id, s, w, nowMs)
    case WriteDispatch(w) => s.job.Some? && s.dispatch.Some? && CanWriteDispatch(id, s, w)
    case Journalled(fx, act) =>
      && s.job.Some? && fx.jobId == id && Fx.Enabled(p, fx, At(s.cells, fx), act)
      && (fx == AsyncFx(id, ProviderTaskCreate) ==>
            && !(act.End? && act.acked)
            && (act.Settle? && act.status == Succeeded ==>
                  s.submitted.Some? && act.receipt == Some(Note(s.submitted.value)))
            && (act.Resume? ==> s.submitted.Some? && act.evidence == Note(s.submitted.value)))
    case Submitted(_) =>
      Fx.Enabled(p, AsyncFx(id, ProviderTaskCreate), At(s.cells, AsyncFx(id, ProviderTaskCreate)), End(true))
    case Polled(poll) =>
      s.job.Some? && Has(s, AsyncFx(id, ProviderTaskCreate)) && s.submitted == Some(poll.providerTaskId)
    case Publish(_) => Fx.Enabled(p, AsyncFx(id, ArtifactWrite), At(s.cells, AsyncFx(id, ArtifactWrite)), End(true))
  }

  function Next(p: Pid, id: string, s: Slot, a: Action, nowMs: int): Slot
    requires Enabled(p, id, s, a, nowMs)
  {
    match a
    case CreateJob(t) => s.(job := Some(Fresh(t, nowMs, Some(t.expiresAt))))
    case CreateDispatch(d) => s.(dispatch := Some(Fresh(d, nowMs, None)), opener := Some(p))
    case WriteJob(w) =>
      s.(job := Some(Bump(s.job.value, AfterJobWrite(s.job.value.value, w, nowMs), nowMs,
                          ScanExpiry(s.job.value.value, w))))
    case WriteDispatch(w) =>
      s.(dispatch := Some(Bump(s.dispatch.value, AfterDispatchWrite(s.dispatch.value.value, w), nowMs, None)))
    case Journalled(fx, act) => s.(cells := s.cells[fx := Fx.Next(p, fx, At(s.cells, fx), act, nowMs)])
    case Submitted(t) =>
      var fx := AsyncFx(id, ProviderTaskCreate);
      s.(cells := s.cells[fx := Fx.Next(p, fx, At(s.cells, fx), End(true), nowMs)], submitted := Some(t))
    case Polled(poll) => s.(polls := s.polls + [poll])
    case Publish(ref) => s.(published := Some(ref))
  }

  // ------------------------------------------------------------------ invariant

  ghost predicate JobInv(id: string, s: Slot) {
    && (s.job.Some? ==>
          && s.job.value.revision >= 1 && s.job.value.value.jobId == id
          && (s.job.value.value.status == Completed ==> Evidence(id, s, s.job.value.value.resultArtifactRef))
          && MayFail(s, s.job.value.value.status))
    && (s.job.None? ==>
          s.dispatch.None? && s.cells == map[] && s.submitted == None && s.published == None && s.polls == [])
  }

  ghost predicate DispatchInv(id: string, s: Slot) {
    && JournalInv(s.cells)
    && (s.submitted.Some? ==>
          var fx := AsyncFx(id, ProviderTaskCreate);
          fx in s.cells && s.cells[fx].begun == 1 && s.cells[fx].open == 0)
    && (s.published.Some? ==> WriteBegun(id, s))
    && (Has(s, AsyncFx(id, ProviderTaskCreate)) ==>
          s.submitted.Some?
            && s.cells[AsyncFx(id, ProviderTaskCreate)].Effect().receipt == Some(Note(s.submitted.value)))
    && (s.dispatch.Some? ==>
          var d := s.dispatch.value.value;
          && s.dispatch.value.revision >= 1
          && (d.providerTaskId.Some? ==> d.providerTaskId == s.submitted)
          && (d.upstreamAcknowledged ==>
                AsyncFx(id, ProviderTaskCancel) in s.cells && Settled(s.cells[AsyncFx(id, ProviderTaskCancel)]))
          && (d.sourceRevocation != NotRevoked ==> s.job.Some? && Terminal(s.job.value.value.status))
          && (d.resultArtifactRef.Some? ==> s.job.Some? && (Terminal(s.job.value.value.status) || WriteBegun(id, s))))
  }

  ghost predicate SlotInv(id: string, s: Slot) { JobInv(id, s) && DispatchInv(id, s) }

  // ------------------------------------------------------------------ what never changes back

  predicate FrozenJob(t: Job, u: Job) {
    && t.jobId == u.jobId && t.ownerId == u.ownerId && t.credentialBinding == u.credentialBinding
    && t.idempotencyKey == u.idempotencyKey && t.requestFingerprint == u.requestFingerprint
    && t.createdAt == u.createdAt && t.expiresAt == u.expiresAt
  }

  /** Rank never falls; cancelled and expired never change; the only move out of
      completed or failed is expiry, at or after the job's expiry time. */
  predicate JobGrows(r: Record<Job>, r': Record<Job>) {
    var t, u := r.value, r'.value;
    && r.revision <= r'.revision && (r.revision == r'.revision ==> r == r')
    && FrozenJob(t, u)
    && Rank(t.status) <= Rank(u.status)
    && (t.status == Cancelled || t.status == Expired ==> r' == r)
    && (t.status == Completed || t.status == Failed ==>
          && t.resultArtifactRef == u.resultArtifactRef
          && (u.status == t.status ==> r' == r)
          && (u.status != t.status ==> u.status == Expired && u.updatedAt >= u.expiresAt))
  }

  function RevocationRank(v: Revocation): nat {
    match v
    case NotRevoked => 0
    case SourceExpired => 1
    case SourceDeleted => 2
  }

  predicate DispatchGrows(r: Record<Dispatch>, r': Record<Dispatch>) {
    r.revision <= r'.revision && (r.revision == r'.revision ==> r == r') && Climbs(r.value, r'.value)
  }

  predicate Climbs(d: Dispatch, e: Dispatch) {
    && d.source == e.source && d.providerId == e.providerId && d.policy == e.policy && d.budgetEndsAt == e.budgetEndsAt
    && (d.providerTaskId.Some? ==> e.providerTaskId == d.providerTaskId)
    && (d.dispatchCancelled ==> e.dispatchCancelled) && (d.upstreamRequested ==> e.upstreamRequested)
    && (d.upstreamAcknowledged ==> e.upstreamAcknowledged)
    && (d.resultArtifactRef.Some? ==> e.resultArtifactRef.Some?)
    && RevocationRank(d.sourceRevocation) <= RevocationRank(e.sourceRevocation)
  }

  predicate Grows(s: Slot, s': Slot) {
    && s.driver == s'.driver
    && (s.job.Some? ==> s'.job.Some? && JobGrows(s.job.value, s'.job.value))
    && (s.dispatch.Some? ==> s'.dispatch.Some? && DispatchGrows(s.dispatch.value, s'.dispatch.value))
    && (s.submitted.Some? ==> s'.submitted == s.submitted)
    && (s.published.Some? ==> s'.published.Some?)
    && s.polls <= s'.polls
    && ReceiptsStay(s, s')
  }

  /** A receipt on record stays on record, and no call is made behind it. */
  predicate ReceiptsStay(s: Slot, s': Slot) {
    forall fx | fx in s.cells && Settled(s.cells[fx]) :: fx in s'.cells && SameReceipt(s.cells[fx], s'.cells[fx])
  }

  lemma JobWriteGrows(id: string, s: Slot, w: JobWrite, nowMs: int)
    requires s.job.Some? && CanWriteJob(id, s, w, nowMs)
    ensures var t := s.job.value.value;
            JobGrows(s.job.value, Bump(s.job.value, AfterJobWrite(t, w, nowMs), nowMs, ScanExpiry(t, w)))
  {
    hide Evidence;
  }

  lemma DispatchWriteGrows(id: string, s: Slot, w: DispatchWrite, nowMs: int)
    requires s.job.Some? && s.dispatch.Some? && CanWriteDispatch(id, s, w)
    requires s.dispatch.value.value.providerTaskId.Some? ==> s.dispatch.value.value.providerTaskId == s.submitted
    ensures DispatchGrows(s.dispatch.value,
                          Bump(s.dispatch.value, AfterDispatchWrite(s.dispatch.value.value, w), nowMs, None))
  {
    hide Settled;
  }

  lemma StepGrows(p: Pid, id: string, s: Slot, a: Action, nowMs: int)
    requires SlotInv(id, s) && Enabled(p, id, s, a, nowMs)
    ensures Grows(s, Next(p, id, s, a, nowMs))
  {
    match a
    case Submitted(_) =>
      var fx := AsyncFx(id, ProviderTaskCreate);
      assert Fx.Inv(fx, s.cells[fx]) && s.cells[fx].open > 0;
    case Journalled(fx, act) =>
      if fx in s.cells { assert Fx.Inv(fx, s.cells[fx]); }
    case WriteJob(w) =>
      JobWriteGrows(id, s, w, nowMs);
      hide JobGrows, JobInv, DispatchInv, Evidence, CanWriteJob;
    case WriteDispatch(w) =>
      DispatchWriteGrows(id, s, w, nowMs);
      hide DispatchGrows, JobInv, DispatchInv, CanWriteDispatch;
    case _ =>
  }

  lemma JobStepKeepsInv(p: Pid, id: string, s: Slot, a: Action, nowMs: int)
    requires SlotInv(id, s) && Enabled(p, id, s, a, nowMs)
    ensures JobInv(id, Next(p, id, s, a, nowMs))
  {
    match a
    case Submitted(_) => assert s.cells[AsyncFx(id, ProviderTaskCreate)].open > 0;
    case Journalled(fx, act) => JournalStepKeepsJobInv(p, id, s, fx, act, nowMs);
    case _ => hide Fx.Inv, Fx.Enabled, Fx.Next;
  }

  lemma JournalStepKeepsJobInv(p: Pid, id: string, s: Slot, fx: EffectId, act: CellAction, nowMs: int)
    requires SlotInv(id, s) && Enabled(p, id, s, Journalled(fx, act), nowMs)
    ensures JobInv(id, Next(p, id, s, Journalled(fx, act), nowMs))
  {
  }

  lemma JournalStepKeepsInv(p: Pid, id: string, s: Slot, fx: EffectId, act: CellAction, nowMs: int)
    requires DispatchInv(id, s) && Enabled(p, id, s, Journalled(fx, act), nowMs)
    ensures DispatchInv(id, Next(p, id, s, Journalled(fx, act), nowMs))
  {
    StepKeepsInv(p, fx, At(s.cells, fx), act, nowMs);
    if fx == AsyncFx(id, ProviderTaskCreate) {
      CreateStepKeepsInv(p, id, s, fx, act, nowMs);
    } else {
      OtherStepKeepsInv(p, id, s, fx, act, nowMs);
    }
  }

  lemma CreateStepKeepsInv(p: Pid, id: string, s: Slot, fx: EffectId, act: CellAction, nowMs: int)
    requires DispatchInv(id, s) && Enabled(p, id, s, Journalled(fx, act), nowMs)
             && fx == AsyncFx(id, ProviderTaskCreate)
    requires Fx.Inv(fx, Fx.Next(p, fx, At(s.cells, fx), act, nowMs))
    ensures DispatchInv(id, Next(p, id, s, Journalled(fx, act), nowMs))
  {
    if fx in s.cells { assert Fx.Inv(fx, s.cells[fx]); }
  }

  lemma OtherStepKeepsInv(p: Pid, id: string, s: Slot, fx: EffectId, act: CellAction, nowMs: int)
    requires DispatchInv(id, s) && Enabled(p, id, s, Journalled(fx, act), nowMs)
             && fx != AsyncFx(id, ProviderTaskCreate)
    requires Fx.Inv(fx, Fx.Next(p, fx, At(s.cells, fx), act, nowMs))
    ensures DispatchInv(id, Next(p, id, s, Journalled(fx, act), nowMs))
  {
    if fx in s.cells { assert Fx.Inv(fx, s.cells[fx]); }
  }

  lemma SubmittedKeepsInv(p: Pid, id: string, s: Slot, t: string, nowMs: int)
    requires DispatchInv(id, s) && Enabled(p, id, s, Submitted(t), nowMs)
    ensures DispatchInv(id, Next(p, id, s, Submitted(t), nowMs))
  {
    var create := AsyncFx(id, ProviderTaskCreate);
    assert Fx.Inv(create, s.cells[create]);
    StepKeepsInv(p, create, At(s.cells, create), End(true), nowMs);
  }

  lemma JobWriteKeepsDispatchInv(p: Pid, id: string, s: Slot, w: JobWrite, nowMs: int)
    requires DispatchInv(id, s) && Enabled(p, id, s, WriteJob(w), nowMs)
    ensures DispatchInv(id, Next(p, id, s, WriteJob(w), nowMs))
  {
    JobWriteGrows(id, s, w, nowMs);
    hide Evidence, CanWriteJob, Fx.Inv;
  }

  lemma DispatchWriteKeepsInv(p: Pid, id: string, s: Slot, w: DispatchWrite, nowMs: int)
    requires DispatchInv(id, s) && Enabled(p, id, s, WriteDispatch(w), nowMs)
    ensures DispatchInv(id, Next(p, id, s, WriteDispatch(w), nowMs))
  {
    hide Evidence, Fx.Inv;
  }

  lemma PublishKeepsInv(p: Pid, id: string, s: Slot, ref: string, nowMs: int)
    requires DispatchInv(id, s) && Enabled(p, id, s, Publish(ref), nowMs)
    ensures DispatchInv(id, Next(p, id, s, Publish(ref), nowMs))
  {
    hide Evidence;
    assert Fx.Inv(AsyncFx(id, ArtifactWrite), s.cells[AsyncFx(id, ArtifactWrite)]);
  }

  lemma DispatchStepKeepsInv(p: Pid, id: string, s: Slot, a: Action, nowMs: int)
    requires SlotInv(id, s) && Enabled(p, id, s, a, nowMs)
    ensures DispatchInv(id, Next(p, id, s, a, nowMs))
  {
    match a
    case Submitted(t) => SubmittedKeepsInv(p, id, s, t, nowMs);
    case Journalled(fx, act) => JournalStepKeepsInv(p, id, s, fx, act, nowMs);
    case WriteJob(w) => JobWriteKeepsDispatchInv(p, id, s, w, nowMs);
    case WriteDispatch(w) => DispatchWriteKeepsInv(p, id, s, w, nowMs);
    case Publish(ref) => PublishKeepsInv(p, id, s, ref, nowMs);
    case _ => hide Evidence, Fx.Inv;
  }

  lemma StepKeepsSlotInv(p: Pid, id: string, s: Slot, a: Action, nowMs: int)
    requires SlotInv(id, s) && Enabled(p, id, s, a, nowMs)
    ensures SlotInv(id, Next(p, id, s, a, nowMs)) && Grows(s, Next(p, id, s, a, nowMs))
  {
    StepGrows(p, id, s, a, nowMs);
    JobStepKeepsInv(p, id, s, a, nowMs);
    DispatchStepKeepsInv(p, id, s, a, nowMs);
  }

  lemma EmptySlotInv(id: string, d: Driver)
    ensures SlotInv(id, Empty(d))
  {
  }

  /** What worker `me` may rely on while others run. */
  ghost predicate SlotRely(me: Pid, s: Slot, s': Slot) {
    && Grows(s, s') && (forall fx :: Fx.Rely(me, At(s.cells, fx), At(s'.cells, fx)))
    && (s'.opener == Some(me) ==> s.opener == Some(me))
  }

  lemma SlotRelyRefl(me: Pid, s: Slot)
    ensures SlotRely(me, s, s)
  {
  }

  lemma OthersStepIsRely(me: Pid, p: Pid, id: string, s: Slot, a: Action, nowMs: int)
    requires p != me && SlotInv(id, s) && Enabled(p, id, s, a, nowMs)
    ensures SlotRely(me, s, Next(p, id, s, a, nowMs))
  {
    StepGrows(p, id, s, a, nowMs);
    OthersStepOnCells(me, p, id, s, a, nowMs);
    hide SlotInv, Grows, Fx.Rely, Fx.Enabled, Fx.Next, CanWriteJob, CanWriteDispatch;
  }

  lemma OthersStepOnCells(me: Pid, p: Pid, id: string, s: Slot, a: Action, nowMs: int)
    requires p != me && JournalInv(s.cells) && Enabled(p, id, s, a, nowMs)
    ensures forall fx :: Fx.Rely(me, At(s.cells, fx), At(Next(p, id, s, a, nowMs).cells, fx))
  {
    hide Fx.Rely, Fx.Enabled, Fx.Next, CanWriteJob, CanWriteDispatch;
    var s' := Next(p, id, s, a, nowMs);
    match a {
      case Journalled(fx, act) => OthersKeepRely(p, me, fx, At(s.cells, fx), act, nowMs);
      case Submitted(_) =>
        OthersKeepRely(p, me, AsyncFx(id, ProviderTaskCreate), At(s.cells, AsyncFx(id, ProviderTaskCreate)), End(true),
                       nowMs);
      case _ =>
    }
    forall fx ensures Fx.Rely(me, At(s.cells, fx), At(s'.cells, fx)) {
      if At(s'.cells, fx) == At(s.cells, fx) { RelyReflexive(me, At(s.cells, fx)); }
    }
  }

  lemma GrowsTransitive(a: Slot, b: Slot, c: Slot)
    requires Grows(a, b) && Grows(b, c)
    ensures Grows(a, c)
  {
  }

  lemma SlotRelyTransitive(me: Pid, id: string, a: Slot, b: Slot, c: Slot)
    requires SlotInv(id, a) && SlotInv(id, b) && SlotInv(id, c) && SlotRely(me, a, b) && SlotRely(me, b, c)
    ensures SlotRely(me, a, c)
  {
    GrowsTransitive(a, b, c);
    ComposeRely(me, a.cells, b.cells, c.cells);
  }

  // ------------------------------------------------------------------ whole runs

  datatype JobEvent = JobEvent(pid: Pid, action: Action, nowMs: int)

  function PerformJob(id: string, s: Slot, e: JobEvent): Slot {
    if Enabled(e.pid, id, s, e.action, e.nowMs) then Next(e.pid, id, s, e.action, e.nowMs) else s
  }

  function ExecuteJob(id: string, s: Slot, schedule: seq<JobEvent>): Slot
    decreases |schedule|
  {
    if schedule == [] then s else ExecuteJob(id, PerformJob(id, s, schedule[0]), schedule[1..])
  }

  lemma {:induction false} JobRunKeepsInv(id: string, s: Slot, schedule: seq<JobEvent>)
    requires SlotInv(id, s)
    ensures SlotInv(id, ExecuteJob(id, s, schedule)) && Grows(s, ExecuteJob(id, s, schedule))
    decreases |schedule|
  {
    hide SlotInv, Enabled, Next;
    if schedule != [] {
      var e := schedule[0];
      if Enabled(e.pid, id, s, e.action, e.nowMs) { StepKeepsSlotInv(e.pid, id, s, e.action, e.nowMs); }
      JobRunKeepsInv(id, PerformJob(id, s, e), schedule[1..]);
      GrowsTransitive(s, PerformJob(id, s, e), ExecuteJob(id, s, schedule));
    }
  }

  lemma {:induction false} OthersJobRunIsRely(me: Pid, id: string, s: Slot, schedule: seq<JobEvent>)
    requires SlotInv(id, s) && forall i | 0 <= i < |schedule| :: schedule[i].pid != me
    ensures SlotInv(id, ExecuteJob(id, s, schedule)) && SlotRely(me, s, ExecuteJob(id, s, schedule))
    decreases |schedule|
  {
    hide SlotInv, Enabled, Next, SlotRely;
    SlotRelyRefl(me, s);
    if schedule != [] {
      var e := schedule[0];
      if Enabled(e.pid, id, s, e.action, e.nowMs) {
        StepKeepsSlotInv(e.pid, id, s, e.action, e.nowMs);
        OthersStepIsRely(me, e.pid, id, s, e.action, e.nowMs);
      }
      OthersJobRunIsRely(me, id, PerformJob(id, s, e), schedule[1..]);
      SlotRelyTransitive(me, id, s, PerformJob(id, s, e), ExecuteJob(id, s, schedule));
    }
  }

  /** Over every run, transitions, lazy expiry and source revocation interleaved: rank
      never falls, cancelled and expired are final, completed and failed can only expire
      and only at or after the expiry time, identity and expiry are frozen. */
  lemma JobLifecycle(id: string, d: Driver, before: seq<JobEvent>, after: seq<JobEvent>)
    requires ExecuteJob(id, Empty(d), before).job.Some?
    ensures var s, s' := ExecuteJob(id, Empty(d), before), ExecuteJob(id, ExecuteJob(id, Empty(d), before), after);
            && s'.job.Some?
            && var t, u := s.job.value.value, s'.job.value.value;
            && FrozenJob(t, u) && Rank(t.status) <= Rank(u.status)
            && (t.status == Cancelled || t.status == Expired ==> u == t)
            && (t.status == Completed || t.status == Failed ==>
                  u == t || (u.status == Expired && u.updatedAt >= t.expiresAt))
  {
    JobRunKeepsInv(id, Empty(d), before);
    JobRunKeepsInv(id, ExecuteJob(id, Empty(d), before), after);
  }

  /** A completed job has every receipt of its driver, and each of the calls behind them
      was begun exactly once, whatever was retried or restarted. */
  lemma CompletionNeedsEveryReceipt(id: string, d: Driver, schedule: seq<JobEvent>)
    requires var s := ExecuteJob(id, Empty(d), schedule); s.job.Some? && s.job.value.value.status == Completed
    ensures var s := ExecuteJob(id, Empty(d), schedule);
            && Evidence(id, s, s.job.value.value.resultArtifactRef)
            && forall kind | kind == ProviderTaskCreate || kind == ArtifactWrite || (kind == PaidUpstreamCall
                    && d == ByExecutor) ::
                 var fx := if d == ByExecutor then ExecFx(id, kind) else AsyncFx(id, kind);
                 fx in s.cells && s.cells[fx].begun == 1
  {
    JobRunKeepsInv(id, Empty(d), schedule);
    var s := ExecuteJob(id, Empty(d), schedule);
    forall kind | kind == ProviderTaskCreate || kind == ArtifactWrite || (kind == PaidUpstreamCall && d == ByExecutor)
      ensures var fx := if d == ByExecutor then ExecFx(id, kind) else AsyncFx(id, kind);
              fx in s.cells && s.cells[fx].begun == 1
    {
      var fx := if d == ByExecutor then ExecFx(id, kind) else AsyncFx(id, kind);
      assert Fx.Inv(fx, s.cells[fx]) && Settled(s.cells[fx]);
    }
  }

  /** In every run a job driven by the runtime has failed only if a poll of its submitted
      task answered that it failed, and has completed only if one answered that it completed. */
  lemma OutcomeIsTheProviders(id: string, schedule: seq<JobEvent>)
    requires ExecuteJob(id, Empty(ByRuntime), schedule).job.Some?
    ensures var s := ExecuteJob(id, Empty(ByRuntime), schedule);
            && (s.job.value.value.status == Failed ==>
                  s.submitted.Some? && Poll(s.submitted.value, ProviderFailed) in s.polls)
            && (s.job.value.value.status == Completed ==>
                  s.submitted.Some? && Poll(s.submitted.value, ProviderCompleted(true)) in s.polls)
  {
    JobRunKeepsInv(id, Empty(ByRuntime), schedule);
  }

  /** At most once per job: provider submission, paid call and artifact write. */
  lemma EachEffectBeginsAtMostOnce(id: string, d: Driver, schedule: seq<JobEvent>, fx: EffectId)
    requires fx in ExecuteJob(id, Empty(d), schedule).cells && fx.kind != ProviderTaskCancel
    ensures ExecuteJob(id, Empty(d), schedule).cells[fx].begun <= 1
  {
    JobRunKeepsInv(id, Empty(d), schedule);
    assert Fx.Inv(fx, ExecuteJob(id, Empty(d), schedule).cells[fx]);
  }

  /** The dispatch record climbs a lattice: source, policy and budget are frozen, the
      provider identifier is written once and is the one the provider answered, the
      cancellation and acknowledgement flags never fall, revocation only gets stronger. */
  lemma DispatchLattice(id: string, d: Driver, before: seq<JobEvent>, after: seq<JobEvent>)
    requires ExecuteJob(id, Empty(d), before).dispatch.Some?
    ensures var s, s' := ExecuteJob(id, Empty(d), before), ExecuteJob(id, ExecuteJob(id, Empty(d), before), after);
            && s'.dispatch.Some? && DispatchGrows(s.dispatch.value, s'.dispatch.value)
            && (s'.dispatch.value.value.providerTaskId.Some? ==>
                  && s'.dispatch.value.value.providerTaskId == s'.submitted
                  && AsyncFx(id, ProviderTaskCreate) in s'.cells
                  && s'.cells[AsyncFx(id, ProviderTaskCreate)].begun == 1)
  {
    JobRunKeepsInv(id, Empty(d), before);
    JobRunKeepsInv(id, ExecuteJob(id, Empty(d), before), after);
  }

  /** Once a job is cancelled, or its dispatch record says the source was revoked, it
      does not become completed later. */
  lemma NoCompletionAfterStop(id: string, d: Driver, before: seq<JobEvent>, after: seq<JobEvent>)
    requires var s := ExecuteJob(id, Empty(d), before);
             && s.job.Some? && s.job.value.value.status != Completed
             && (s.job.value.value.status == Cancelled ||
                 (s.dispatch.Some? && s.dispatch.value.value.sourceRevocation != NotRevoked))
    ensures var s' := ExecuteJob(id, ExecuteJob(id, Empty(d), before), after);
            s'.job.Some? && s'.job.value.value.status != Completed
  {
    JobRunKeepsInv(id, Empty(d), before);
    JobRunKeepsInv(id, ExecuteJob(id, Empty(d), before), after);
  }

  /** An upstream acknowledgement is on record only if a provider cancel call really
      acknowledged; such calls never overlap, and none starts after that record. */
  lemma UpstreamCancelIsHonest(id: string, d: Driver, before: seq<JobEvent>, after: seq<JobEvent>)
    requires var s := ExecuteJob(id, Empty(d), before); s.dispatch.Some? && s.dispatch.value.value.upstreamAcknowledged
    ensures var fx := AsyncFx(id, ProviderTaskCancel);
            var s, s' := ExecuteJob(id, Empty(d), before), ExecuteJob(id, ExecuteJob(id, Empty(d), before), after);
            && fx in s.cells && s.cells[fx].acks > 0 && s.cells[fx].open == 0
            && fx in s'.cells && s'.cells[fx].begun == s.cells[fx].begun && s'.cells[fx].open == 0
  {
    var fx := AsyncFx(id, ProviderTaskCancel);
    JobRunKeepsInv(id, Empty(d), before);
    assert Fx.Inv(fx, ExecuteJob(id, Empty(d), before).cells[fx]);
    JobRunKeepsInv(id, ExecuteJob(id, Empty(d), before), after);
  }

  /** Calls of one effect of a job never overlap. */
  lemma JobCallsNeverOverlap(id: string, d: Driver, schedule: seq<JobEvent>, fx: EffectId)
    requires fx in ExecuteJob(id, Empty(d), schedule).cells
    ensures ExecuteJob(id, Empty(d), schedule).cells[fx].open <= 1
  {
    JobRunKeepsInv(id, Empty(d), schedule);
    assert Fx.Inv(fx, ExecuteJob(id, Empty(d), schedule).cells[fx]);
  }

  // ------------------------------------------------------------------ the cleanup flag

  /** `resultCleanupDone` is the one flag that is not monotone: finishing the cleanup of
      one reference clears it when the record has come to name another. Exactly then. */
  lemma CleanupFlagFalls(d: Dispatch, w: DispatchWrite)
    requires d.resultCleanupDone
    ensures !AfterDispatchWrite(d, w).resultCleanupDone <==> w.FinishCleanup? && d.resultArtifactRef != Some(w.cleaned)
  {
  }

  function CleanedRun(t: Job, d: Dispatch): seq<JobEvent> {
    [JobEvent(1, CreateJob(t), 0), JobEvent(1, CreateDispatch(d), 0),
     JobEvent(1, WriteJob(Move(Cancelled, None, None)), 0),
     JobEvent(1, WriteDispatch(SetResult("first")), 0), JobEvent(1, WriteDispatch(FinishCleanup("first")), 0)]
  }

  function SecondReference(): seq<JobEvent> {
    [JobEvent(2, WriteDispatch(SetResult("second")), 0), JobEvent(1, WriteDispatch(FinishCleanup("first")), 0)]
  }

  /** It does happen, in a run of one cancelled job: a second worker records another
      reference, and a late cleanup of the first clears the flag. */
  lemma CleanupFlagFallsWitness(id: string, t: Job, d: Dispatch)
    requires InitialJob(id, t) && t.expiresAt > 0 && InitialDispatch(d)
    ensures var s := ExecuteJob(id, Empty(ByRuntime), CleanedRun(t, d));
            var s' := ExecuteJob(id, s, SecondReference());
            && s.dispatch.Some? && s.dispatch.value.value.resultCleanupDone
            && s'.dispatch.Some? && !s'.dispatch.value.value.resultCleanupDone
  {
    hide ExecuteJob;
    var e := CleanedRun(t, d);
    var s1 := PerformJob(id, Empty(ByRuntime), e[0]);
    var s2 := PerformJob(id, s1, e[1]);
    var s3 := PerformJob(id, s2, e[2]);
    var s5 := ExecuteJob(id, s3, e[3..]);
    JobCancelled(id, t, d);
    DispatchWrites(id, s3, SetResult("first"), FinishCleanup("first"), 1, 1);
    assert e[3..] == [e[3], e[4]];
    assert e == [e[0], e[1], e[2]] + e[3..];
    ExecuteConcat(id, Empty(ByRuntime), [e[0], e[1], e[2]], e[3..]);
    ExecuteThree(id, Empty(ByRuntime), e[0], e[1], e[2]);
    DispatchWrites(id, s5, SetResult("second"), FinishCleanup("first"), 2, 1);
    assert |"first"| != |"second"|;
  }

  lemma JobCancelled(id: string, t: Job, d: Dispatch)
    requires InitialJob(id, t) && t.expiresAt > 0 && InitialDispatch(d)
    ensures var e := CleanedRun(t, d);
            var s := PerformJob(id, PerformJob(id, PerformJob(id, Empty(ByRuntime), e[0]), e[1]), e[2]);
            && s.job.Some? && Terminal(s.job.value.value.status) && s.dispatch.Some? && s.dispatch.value.value == d
  {
    hide Evidence;
  }

  lemma DispatchWrites(id: string, s: Slot, v: DispatchWrite, w: DispatchWrite, p: Pid, q: Pid)
    requires s.job.Some? && Terminal(s.job.value.value.status) && s.dispatch.Some? && v.SetResult? && w.FinishCleanup?
    ensures var s' := ExecuteJob(id, s, [JobEvent(p, WriteDispatch(v), 0), JobEvent(q, WriteDispatch(w), 0)]);
            && s'.job == s.job && s'.dispatch.Some?
            && s'.dispatch.value.value == AfterDispatchWrite(AfterDispatchWrite(s.dispatch.value.value, v), w)
  {
    hide Evidence;
    var a, b := JobEvent(p, WriteDispatch(v), 0), JobEvent(q, WriteDispatch(w), 0);
    ExecuteTwo(id, s, a, b);
  }

  lemma ExecuteThree(id: string, s: Slot, a: JobEvent, b: JobEvent, c: JobEvent)
    ensures ExecuteJob(id, s, [a, b, c]) == PerformJob(id, PerformJob(id, PerformJob(id, s, a), b), c)
  {
    hide PerformJob;
    assert [a, b, c][1..] == [b, c] && [b, c][1..] == [c] && [c][1..] == [];
    var s1, s2 := PerformJob(id, s, a), PerformJob(id, PerformJob(id, s, a), b);
    assert ExecuteJob(id, s1, [b, c]) == ExecuteJob(id, s2, [c]) == ExecuteJob(id, PerformJob(id, s2, c), []);
  }

  lemma {:induction false} ExecuteConcat(id: string, s: Slot, a: seq<JobEvent>, b: seq<JobEvent>)
    ensures ExecuteJob(id, s, a + b) == ExecuteJob(id, ExecuteJob(id, s, a), b)
    decreases |a|
  {
    hide PerformJob;
    if a == [] {
      assert a + b == b;
    } else {
      assert (a + b)[1..] == a[1..] + b;
      ExecuteConcat(id, PerformJob(id, s, a[0]), a[1..], b);
    }
  }

  function RunDispatch(d: Dispatch, ws: seq<DispatchWrite>): Dispatch {
    if ws == [] then d else AfterDispatchWrite(RunDispatch(d, ws[..|ws| - 1]), ws[|ws| - 1])
  }

  /** It does not when the artifact port reports one reference per job, as the output
      runtime's reservations do. */
  lemma {:induction false} CleanupFlagSticksForOneReference(d: Dispatch, ws: seq<DispatchWrite>, ref: string)
    requires d.resultCleanupDone && d.resultArtifactRef == Some(ref)
    requires forall i | 0 <= i < |ws| ::
               (ws[i].SetResult? ==> ws[i].resultRef == ref) && (ws[i].FinishCleanup? ==> ws[i].cleaned == ref)
    ensures RunDispatch(d, ws).resultCleanupDone && RunDispatch(d, ws).resultArtifactRef == Some(ref)
  {
    if ws != [] { CleanupFlagSticksForOneReference(d, ws[..|ws| - 1], ref); }
  }

  // ------------------------------------------------------------------ results left to clean up

  /** A result is on record and neither cleaned up nor the wanted one of a completed job. */
  predicate CleanupDue(status: JobStatus, d: Dispatch) {
    && d.resultArtifactRef.Some? && !d.resultCleanupDone
    && (status != Completed || d.sourceRevocation != NotRevoked)
  }

  predicate CleanupOwed(s: Slot) {
    && s.job.Some? && s.dispatch.Some? && Terminal(s.job.value.value.status)
    && CleanupDue(s.job.value.value.status, s.dispatch.value.value)
  }

  /** The steps that leave an ended job with a result to clean up: a result recorded late,
      the cleanup of another reference finished, a completed job's source revoked, and its
      expiry. */
  predicate LeavesResult(s: Slot, a: Action)
    requires s.job.Some?
  {
    s.dispatch.Some? &&
    var d, status := s.dispatch.value.value, s.job.value.value.status;
    match a
    case WriteDispatch(SetResult(_)) => !d.resultCleanupDone
      && (status != Completed || d.sourceRevocation != NotRevoked)
    case WriteDispatch(FinishCleanup(ref)) =>
      && d.resultArtifactRef.Some? && d.resultArtifactRef.value != ref
      && (status != Completed || d.sourceRevocation != NotRevoked)
    case WriteDispatch(RevokeDispatch(_)) => status == Completed && d.resultArtifactRef.Some? && !d.resultCleanupDone
    case WriteJob(Expire) => status == Completed && d.resultArtifactRef.Some? && !d.resultCleanupDone
    case _ => false
  }

  /** An ended job that owes no cleanup comes to owe one by exactly these steps. */
  lemma StepLeavesResult(p: Pid, id: string, s: Slot, a: Action, nowMs: int)
    requires s.job.Some? && Terminal(s.job.value.value.status) && !CleanupOwed(s) && Enabled(p, id, s, a, nowMs)
    ensures CleanupOwed(Next(p, id, s, a, nowMs)) <==> LeavesResult(s, a)
    ensures Next(p, id, s, a, nowMs).job.Some? && Terminal(Next(p, id, s, a, nowMs).job.value.value.status)
  {
    hide Evidence, Fx.Enabled, Fx.Next;
    match a {
      case WriteDispatch(w) => match w { case _ => }
      case WriteJob(w) => match w { case _ => }
      case _ =>
    }
  }

  predicate NeverOwed(id: string, s: Slot, schedule: seq<JobEvent>)
    decreases |schedule|
  {
    !CleanupOwed(s) && (schedule != [] ==> NeverOwed(id, PerformJob(id, s, schedule[0]), schedule[1..]))
  }

  predicate ResultLeft(id: string, s: Slot, schedule: seq<JobEvent>)
    requires s.job.Some? && Terminal(s.job.value.value.status) && !CleanupOwed(s)
    decreases |schedule|
  {
    schedule != [] &&
    var e := schedule[0];
    if Enabled(e.pid, id, s, e.action, e.nowMs) then
      StepLeavesResult(e.pid, id, s, e.action, e.nowMs);
      LeavesResult(s, e.action) || ResultLeft(id, Next(e.pid, id, s, e.action, e.nowMs), schedule[1..])
    else ResultLeft(id, s, schedule[1..])
  }

  /** Over every run: an ended job that owes no cleanup never owes one if and only if
      nothing that follows performs one of those steps. */
  lemma CleanupStaysDoneExactly(id: string, d: Driver, before: seq<JobEvent>, after: seq<JobEvent>)
    requires var s := ExecuteJob(id, Empty(d), before);
             s.job.Some? && Terminal(s.job.value.value.status) && !CleanupOwed(s)
    ensures NeverOwed(id, ExecuteJob(id, Empty(d), before), after)
            <==> !ResultLeft(id, ExecuteJob(id, Empty(d), before), after)
  {
    NotOwedUnlessLeft(id, ExecuteJob(id, Empty(d), before), after);
  }

  lemma {:induction false} NotOwedUnlessLeft(id: string, s: Slot, schedule: seq<JobEvent>)
    requires s.job.Some? && Terminal(s.job.value.value.status) && !CleanupOwed(s)
    ensures NeverOwed(id, s, schedule) <==> !ResultLeft(id, s, schedule)
    decreases |schedule|
  {
    hide Enabled, Next, LeavesResult, CleanupOwed;
    if schedule != [] {
      var e := schedule[0];
      if Enabled(e.pid, id, s, e.action, e.nowMs) {
        StepLeavesResult(e.pid, id, s, e.action, e.nowMs);
        if !LeavesResult(s, e.action) { NotOwedUnlessLeft(id, PerformJob(id, s, e), schedule[1..]); }
      } else {
        NotOwedUnlessLeft(id, s, schedule[1..]);
      }
    }
  }

  /** An attempt of worker 1 is writing its result when worker 3 cancels the job. */
  function CancelledInWrite(id: string, t: Job, d: Dispatch): seq<JobEvent> {
    var fx := AsyncFx(id, ArtifactWrite);
    [JobEvent(1, CreateJob(t), 0), JobEvent(1, CreateDispatch(d), 0)]
    + [JobEvent(1, Journalled(fx, Claim), 0), JobEvent(1, Journalled(fx, Arm), 0),
       JobEvent(1, Journalled(fx, Begin), 0)]
    + [JobEvent(3, WriteDispatch(CancelDispatch(false)), 0), JobEvent(3, WriteJob(Move(Cancelled, None, None)), 0)]
  }

  /** The write returns and the attempt records its result. */
  function LateResult(id: string): seq<JobEvent> {
    [JobEvent(1, Publish("r"), 0), JobEvent(1, WriteDispatch(SetResult("r")), 0)]
  }

  lemma CancelledInWriteEnds(id: string, t: Job, d: Dispatch)
    requires InitialJob(id, t) && t.expiresAt > 0 && InitialDispatch(d)
    ensures var s := ExecuteJob(id, Empty(ByRuntime), CancelledInWrite(id, t, d));
            && s.job.Some? && s.job.value.value.status == Cancelled && s.job.value.value.expiresAt == t.expiresAt
            && s.dispatch.Some? && s.dispatch.value.value == d.(dispatchCancelled := true)
            && AsyncFx(id, ArtifactWrite) in s.cells
            && Fx.Enabled(1, AsyncFx(id, ArtifactWrite), Some(s.cells[AsyncFx(id, ArtifactWrite)]), End(true))
  {
    hide ExecuteJob;
    var fx := AsyncFx(id, ArtifactWrite);
    var e1 := [JobEvent(1, CreateJob(t), 0), JobEvent(1, CreateDispatch(d), 0)];
    var e2 := [JobEvent(1, Journalled(fx, Claim), 0), JobEvent(1, Journalled(fx, Arm), 0),
               JobEvent(1, Journalled(fx, Begin), 0)];
    var e3 := [JobEvent(3, WriteDispatch(CancelDispatch(false)), 0),
               JobEvent(3, WriteJob(Move(Cancelled, None, None)), 0)];
    var s0 := PerformJob(id, PerformJob(id, Empty(ByRuntime), e1[0]), e1[1]);
    ExecuteTwo(id, Empty(ByRuntime), e1[0], e1[1]);
    var s1 := WriteUnderWay(id, s0);
    ExecuteTwo(id, s1, e3[0], e3[1]);
    ExecuteConcat(id, Empty(ByRuntime), e1 + e2, e3);
    ExecuteConcat(id, Empty(ByRuntime), e1, e2);
    CancelledNow(id, s1);
  }

  lemma WriteUnderWay(id: string, s: Slot) returns (s': Slot)
    requires s.job.Some? && s.cells == map[]
    ensures var fx := AsyncFx(id, ArtifactWrite);
            && s' == ExecuteJob(id, s, [JobEvent(1, Journalled(fx, Claim), 0), JobEvent(1, Journalled(fx, Arm), 0),
                                        JobEvent(1, Journalled(fx, Begin), 0)])
            && s'.job == s.job && s'.dispatch == s.dispatch && fx in s'.cells
            && Fx.Enabled(1, fx, Some(s'.cells[fx]), End(true))
  {
    var fx := AsyncFx(id, ArtifactWrite);
    var a, b := JobEvent(1, Journalled(fx, Claim), 0), JobEvent(1, Journalled(fx, Arm), 0);
    var c := JobEvent(1, Journalled(fx, Begin), 0);
    hide ExecuteJob;
    ExecuteThree(id, s, a, b, c);
    var s1 := PerformJob(id, s, a);
    var s2 := PerformJob(id, s1, b);
    s' := PerformJob(id, s2, c);
  }

  lemma CancelledNow(id: string, s: Slot)
    requires s.job.Some? && InitialJob(id, s.job.value.value) && s.job.value.value.expiresAt > 0 && s.dispatch.Some?
    ensures var s1 := PerformJob(id, s, JobEvent(3, WriteDispatch(CancelDispatch(false)), 0));
            var s2 := PerformJob(id, s1, JobEvent(3, WriteJob(Move(Cancelled, None, None)), 0));
            && s2.job.Some? && s2.job.value.value.status == Cancelled
            && s2.job.value.value.expiresAt == s.job.value.value.expiresAt && s2.cells == s.cells
            && s2.dispatch.Some? && s2.dispatch.value.value == s.dispatch.value.value.(dispatchCancelled := true)
  {
    hide Evidence;
  }

  lemma ExecuteTwo(id: string, s: Slot, a: JobEvent, b: JobEvent)
    ensures ExecuteJob(id, s, [a, b]) == PerformJob(id, PerformJob(id, s, a), b)
  {
    hide PerformJob;
    assert [a, b][1..] == [b] && [b][1..] == [];
    assert ExecuteJob(id, PerformJob(id, s, a), [b]) == ExecuteJob(id, PerformJob(id, PerformJob(id, s, a), b), []);
  }

  /** A result recorded late is left behind: nothing was owed before, and it is owed now. */
  lemma LateResultIsOwed(id: string, t: Job, d: Dispatch)
    requires InitialJob(id, t) && t.expiresAt > 0 && InitialDispatch(d)
    ensures var s := ExecuteJob(id, Empty(ByRuntime), CancelledInWrite(id, t, d));
            && s.job.Some? && Terminal(s.job.value.value.status) && !CleanupOwed(s)
            && CleanupOwed(ExecuteJob(id, s, LateResult(id)))
  {
    hide ExecuteJob, Evidence;
    var s := ExecuteJob(id, Empty(ByRuntime), CancelledInWrite(id, t, d));
    CancelledInWriteEnds(id, t, d);
    ExecuteTwo(id, s, LateResult(id)[0], LateResult(id)[1]);
  }
}
