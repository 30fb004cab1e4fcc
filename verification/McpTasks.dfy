/** MCP tasks (src/core/durable-mcp-tasks.ts) as a protocol of atomic steps on one
    task: its record, the journal entries guarding its provider calls, and the history
    of what really reached the provider. Runs are arbitrary schedules of arbitrarily
    many workers; a crashed worker takes no further step. `McpTaskRuntime` shows that
    the runtime's methods perform these steps and no others. */
module McpTasks {
  import opened DurableStore
  import Fx = Effects
  import opened Effects

  // ------------------------------------------------------------------ keyed entries

  function KeySet(es: seq<Entry>): set<string> { set e | e in es :: e.key }

  function KeyList(es: seq<Entry>): seq<string> { seq(|es|, i requires 0 <= i < |es| => es[i].key) }

  /** A JSON object has each key once. */
  predicate DistinctKeys(es: seq<Entry>) { forall i, j | 0 <= i < j < |es| :: es[i].key != es[j].key }

  predicate Distinct<T(==)>(s: seq<T>) { forall i, j | 0 <= i < j < |s| :: s[i] != s[j] }

  function Elements<T>(s: seq<T>): set<T> { set x | x in s }

  function Select(es: seq<Entry>, keep: set<string>): seq<Entry> {
    if es == [] then []
    else (if es[0].key in keep then [es[0]] else []) + Select(es[1..], keep)
  }

  lemma {:induction false} SelectedAre(es: seq<Entry>, keep: set<string>)
    ensures forall e :: e in Select(es, keep) <==> e in es && e.key in keep
  {
    if es != [] {
      SelectedAre(es[1..], keep);
      assert forall e :: e in es <==> e == es[0] || e in es[1..];
    }
  }

  lemma {:induction false} SelectKeepsDistinct(es: seq<Entry>, keep: set<string>)
    requires DistinctKeys(es)
    ensures DistinctKeys(Select(es, keep))
  {
    if es != [] {
      SelectKeepsDistinct(es[1..], keep);
      SelectedAre(es[1..], keep);
      forall e | e in Select(es[1..], keep) ensures e.key != es[0].key {
        var i :| 0 <= i < |es[1..]| && es[1..][i] == e;
        assert es[0].key != es[i + 1].key;
      }
    }
  }

  lemma SelectFilters(es: seq<Entry>, keep: set<string>)
    ensures forall e :: e in Select(es, keep) <==> e in es && e.key in keep
    ensures DistinctKeys(es) ==> DistinctKeys(Select(es, keep))
    ensures KeySet(Select(es, keep)) == KeySet(es) * keep
  {
    SelectedAre(es, keep);
    if DistinctKeys(es) { SelectKeepsDistinct(es, keep); }
    hide Select;
    assert forall e | e in es && e.key in keep :: e in Select(es, keep);
  }

  // ------------------------------------------------------------------ the task record

  datatype TaskStatus = Creating | Working | InputRequired | Completed | Failed | Cancelled

  datatype Billing = Billing(inputUnits: int, outputUnits: int)

  datatype Task = Task(
    taskId: string, ownerId: string, credentialBinding: string, providerId: string,
    providerTaskId: Option<string>, operationInput: string, idempotencyKey: Option<string>,
    status: TaskStatus, result: Option<string>, inputRequests: seq<Entry>, usedInputKeys: seq<string>,
    sanitizedError: Option<string>, createdAt: int, updatedAt: int, expiresAt: int, ttlMs: int,
    pollIntervalMs: int, nextPollAt: int, billing: Option<Billing>,
    callerCancelled: bool, groundlanePollingCancelled: bool,
    upstreamCancelRequested: bool, upstreamCancelled: bool)

  predicate Terminal(s: TaskStatus) { s == Completed || s == Failed || s == Cancelled }

  /** The input epoch: the pending requests and the keys already used. */
  function EpochOf(t: Task): OperationKey { InputEpoch(t.inputRequests, t.usedInputKeys) }

  /** The entries of `responses` an update would send: requested and not used before. */
  function AcceptedInputs(t: Task, responses: seq<Entry>): seq<Entry> {
    Select(responses, KeySet(t.inputRequests) - Elements(t.usedInputKeys))
  }

  datatype PollOutcome =
    | StillWorking
    | NeedsInput(requests: seq<Entry>)
    | Done(result: Option<string>, billing: Option<Billing>)
    | Broke(error: Option<string>)

  /** What becomes of a poll: the provider's reply, or the sanitized error of a call that threw. */
  datatype PollAnswer = Replied(reply: PollOutcome) | PollThrew(error: string)

  function OutcomeOf(a: PollAnswer): PollOutcome { if a.Replied? then a.reply else Broke(Some(a.error)) }

  /** The writes the runtime makes to an existing task record. */
  datatype TaskWrite =
    | SaveHandle(handle: string)
    | FailUncertain
    | TakeLease
    | PersistOutcome(outcome: PollOutcome)
    | AcceptInput(accepted: seq<Entry>)
    | CancelTask
    | MarkUpstreamCancelled
    | StopWaiting

  const CREATE_UNCERTAIN := "Provider task creation outcome is uncertain"

  function AfterWrite(t: Task, w: TaskWrite, nowMs: int): Task {
    match w
    case SaveHandle(h) => t.(providerTaskId := Some(h), status := Working, updatedAt := nowMs, nextPollAt := nowMs)
    case FailUncertain => t.(status := Failed, sanitizedError := Some(CREATE_UNCERTAIN), updatedAt := nowMs)
    case TakeLease => t.(updatedAt := nowMs, nextPollAt := nowMs + t.pollIntervalMs)
    case PersistOutcome(StillWorking) => t.(status := Working, updatedAt := nowMs)
    case PersistOutcome(NeedsInput(requests)) =>
      t.(status := InputRequired, updatedAt := nowMs,
         inputRequests := Select(requests, KeySet(requests) - Elements(t.usedInputKeys)))
    case PersistOutcome(Done(result, billing)) =>
      t.(status := Completed, result := Some(if result.Some? then result.value else "{}"), billing := billing,
         updatedAt := nowMs)
    case PersistOutcome(Broke(error)) =>
      t.(status := Failed, updatedAt := nowMs,
         sanitizedError := Some(if error.Some? then error.value else "The provider task failed"))
    case AcceptInput(accepted) =>
      var remaining := Select(t.inputRequests, KeySet(t.inputRequests) - KeySet(accepted));
      t.(status := if remaining == [] then Working else InputRequired, inputRequests := remaining,
         usedInputKeys := t.usedInputKeys + KeyList(accepted), updatedAt := nowMs, nextPollAt := nowMs)
    case CancelTask =>
      t.(status := Cancelled, groundlanePollingCancelled := true, upstreamCancelRequested := true, updatedAt := nowMs)
    case MarkUpstreamCancelled => t.(upstreamCancelled := true, updatedAt := nowMs)
    case StopWaiting => t.(callerCancelled := true, updatedAt := nowMs)
  }

  // ------------------------------------------------------------------ one task and its history

  /** One call of provider.update: the epoch it answered and what it sent. */
  datatype Delivery = Delivery(epoch: OperationKey, accepted: seq<Entry>)

  /** Poll leases, with the revision they made, and accepted input updates, in the order
      they were committed. */
  datatype PacingEvent = Leased(at: int, lease: nat) | Accepted(at: int)

  /** `maker` is the worker whose write created the record; `pollers` holds the lease
      revisions whose owner has not polled yet, `answers` what came of the polls made under
      the others. */
  datatype Slot = Slot(
    task: Option<Record<Task>>, maker: Option<Pid>, cells: Journal, past: set<OperationKey>, deliveries: seq<Delivery>,
    pacing: seq<PacingEvent>, pollers: map<nat, Pid>, polled: seq<nat>, answers: map<nat, PollAnswer>)

  const EMPTY := Slot(None, None, map[], {}, [], [], map[], [], map[])

  function CreateFx(id: string): EffectId { EffectId(id, ProviderTaskCreate, Named("initial")) }
  function UpdateFx(id: string, epoch: OperationKey): EffectId { EffectId(id, ProviderTaskUpdate, epoch) }
  function CancelFx(id: string): EffectId { EffectId(id, ProviderTaskCancel, Named("cancel")) }

  datatype Action =
    | NewTask(initial: Task)
    | Write(change: TaskWrite)
    | Journalled(fx: EffectId, act: CellAction)          // every journal or provider step except the next
    | Deliver(epoch: OperationKey, accepted: seq<Entry>) // provider.update begins
    | Poll(lease: nat, answer: PollAnswer)               // provider.poll

  predicate Initial(id: string, t: Task) {
    && t.taskId == id && t.status == Creating && t.providerTaskId == None && t.result == None
    && t.inputRequests == [] && t.usedInputKeys == [] && t.pollIntervalMs > 0 && !t.upstreamCancelled
  }

  /** The creation is not on record as succeeded. */
  predicate Unreceipted(id: string, s: Slot) {
    CreateFx(id) in s.cells ==> s.cells[CreateFx(id)].Status() != Succeeded
  }

  /** An outcome is filed on the very revision of the lease it was polled under. */
  predicate CanWrite(p: Pid, id: string, s: Slot, w: TaskWrite, nowMs: int)
    requires s.task.Some?
  {
    var t := s.task.value.value;
    match w
    case SaveHandle(_) => t.status == Creating && CreateFx(id) in s.cells && s.cells[CreateFx(id)].begun > 0
    case FailUncertain => t.status == Creating || (t.status == Working && Unreceipted(id, s))
    case TakeLease => t.status == Working && nowMs >= t.nextPollAt
    case PersistOutcome(o) =>
      t.status == Working && s.task.value.revision in s.answers && o == OutcomeOf(s.answers[s.task.value.revision])
    case AcceptInput(accepted) => t.status == InputRequired && Delivery(EpochOf(t), accepted) in s.deliveries
    case CancelTask => !Terminal(t.status)
    case MarkUpstreamCancelled =>
      t.status == Cancelled && CancelFx(id) in s.cells && Settled(s.cells[CancelFx(id)])
    case StopWaiting => true
  }

  /** What an update may send for an epoch. */
  predicate Answers(epoch: OperationKey, accepted: seq<Entry>) {
    && epoch.InputEpoch? && accepted != [] && DistinctKeys(accepted)
    && KeySet(accepted) <= KeySet(epoch.requests) && KeySet(accepted) !! Elements(epoch.used)
  }

  predicate Enabled(p: Pid, id: string, s: Slot, a: Action, nowMs: int) {
    match a
    case NewTask(t) => s.task.None? && Initial(id, t)
    case Write(w) => s.task.Some? && CanWrite(p, id, s, w, nowMs)
    case Journalled(fx, act) =>
      && s.task.Some? && fx.jobId == id && Fx.Enabled(p, fx, At(s.cells, fx), act)
      && (fx.kind == ProviderTaskCancel && act.Settle? && act.status == Succeeded ==> act.receipt != NOT_ACKNOWLEDGED)
      && (fx.kind == ProviderTaskCreate ==>
            && !act.Resume? && (act.Claim? ==> s.maker == Some(p))
            && (act.Settle? && act.status == Succeeded ==> s.task.value.value.providerTaskId.Some?))
      && (fx.kind == ProviderTaskUpdate ==>
            && act != Begin && !act.Resume?
            && (act.Settle? && act.status == Succeeded ==>
                  exists d :: d in s.deliveries && d.epoch == fx.operationKey
                          && act.receipt == Some(ResponseTo(d.accepted))))
    case Deliver(epoch, accepted) =>
      && Fx.Enabled(p, UpdateFx(id, epoch), At(s.cells, UpdateFx(id, epoch)), Begin)
      && epoch in s.past && Answers(epoch, accepted)
    case Poll(lease, answer) =>
      && lease in s.pollers && s.pollers[lease] == p
      && (OutcomeOf(answer).NeedsInput? ==> DistinctKeys(OutcomeOf(answer).requests))
  }

  function Next(p: Pid, id: string, s: Slot, a: Action, nowMs: int): Slot
    requires Enabled(p, id, s, a, nowMs)
  {
    match a
    case NewTask(t) => s.(task := Some(Fresh(t, nowMs, Some(t.expiresAt))), maker := Some(p))
    case Write(w) =>
      var t := AfterWrite(s.task.value.value, w, nowMs);
      var r := Bump(s.task.value, t, nowMs, Some(t.expiresAt));
      s.(task := Some(r),
         past := if t.status == InputRequired then s.past + {EpochOf(t)} else s.past,
         pacing := if w.TakeLease? then s.pacing + [Leased(nowMs, r.revision)]
                   else if w.AcceptInput? then s.pacing + [Accepted(nowMs)] else s.pacing,
         pollers := if w.TakeLease? then s.pollers[r.revision := p] else s.pollers)
    case Journalled(fx, act) => s.(cells := s.cells[fx := Fx.Next(p, fx, At(s.cells, fx), act, nowMs)])
    case Deliver(epoch, accepted) =>
      var fx := UpdateFx(id, epoch);
      s.(cells := s.cells[fx := Fx.Next(p, fx, At(s.cells, fx), Begin, nowMs)],
         deliveries := s.deliveries + [Delivery(epoch, accepted)])
    case Poll(lease, answer) =>
      s.(pollers := s.pollers - {lease}, polled := s.polled + [lease], answers := s.answers[lease := answer])
  }

  // ------------------------------------------------------------------ invariants

  ghost predicate TaskInv(id: string, s: Slot) {
    && (s.task.None? <==> s.maker.None?)
    && (CreateFx(id) in s.cells ==> s.maker == Some(s.cells[CreateFx(id)].holder))
    && (s.task.Some? ==>
      var t := s.task.value.value;
      && s.task.value.revision >= 1 && t.taskId == id && t.pollIntervalMs > 0
      && (t.status == Working || t.status == InputRequired || t.status == Completed ==> t.providerTaskId.Some?)
      && (t.status == Creating ==> t.providerTaskId.None?)
      && (t.providerTaskId.Some? ==> CreateFx(id) in s.cells && s.cells[CreateFx(id)].begun > 0)
      && (CreateFx(id) in s.cells && s.cells[CreateFx(id)].Status() == Succeeded ==> t.providerTaskId.Some?)
      && (t.status == Cancelled ==> t.groundlanePollingCancelled && t.upstreamCancelRequested)
      && (t.upstreamCancelled ==> t.status == Cancelled && CancelFx(id) in s.cells && Settled(s.cells[CancelFx(id)]))
      && Distinct(t.usedInputKeys) && DistinctKeys(t.inputRequests)
      && KeySet(t.inputRequests) !! Elements(t.usedInputKeys))
  }

  ghost predicate CellsInv(id: string, s: Slot) {
    && JournalInv(s.cells)
    && (forall fx | fx in s.cells :: fx.jobId == id)
    && (forall fx | fx in s.cells && fx.kind == ProviderTaskCancel
            && s.cells[fx].Status() == Succeeded :: Settled(s.cells[fx]))
    && (s.task.None? ==> s.cells == map[] && s.past == {} && s.deliveries == [])
  }

  predicate Passed(s: Slot, d: Delivery) {
    s.task.Some? && KeySet(d.accepted) <= Elements(s.task.value.value.usedInputKeys)
  }

  predicate Current(s: Slot, ep: OperationKey) {
    s.task.Some? && s.task.value.value.status != Working && ep == EpochOf(s.task.value.value)
  }

  /** Every epoch the task has waited in is the current one, or was answered and its
      keys are used up; what was answered is disjoint from everything answered before. */
  ghost predicate InputInv(id: string, s: Slot) {
    && (s.task.Some? && s.task.value.value.status == InputRequired ==> EpochOf(s.task.value.value) in s.past)
    && (s.task.Some? && s.task.value.value.status == Creating ==> s.past == {})
    && (forall ep | ep in s.past ::
          || Current(s, ep)
          || (exists d :: d in s.deliveries && d.epoch == ep && Passed(s, d)))
    && (forall d | d in s.deliveries ::
          && d.epoch in s.past && Answers(d.epoch, d.accepted)
          && UpdateFx(id, d.epoch) in s.cells && s.cells[UpdateFx(id, d.epoch)].begun > 0
          && (Passed(s, d) || Current(s, d.epoch)))
    && (forall i, j | 0 <= i < j < |s.deliveries| ::
          && s.deliveries[i].epoch != s.deliveries[j].epoch
          && KeySet(s.deliveries[i].accepted) !! KeySet(s.deliveries[j].accepted))
    && (forall fx | fx in s.cells && fx.kind == ProviderTaskUpdate && Settled(s.cells[fx]) ::
          exists d :: d in s.deliveries && d.epoch == fx.operationKey
                      && s.cells[fx].Effect().receipt == Some(ResponseTo(d.accepted)))
  }

  /** The lease that made this revision is on the list. */
  ghost predicate LeaseListed(pacing: seq<PacingEvent>, lease: nat) {
    exists k | 0 <= k < |pacing| :: pacing[k].Leased? && pacing[k].lease == lease
  }

  /** Lease revisions rise along the list, up to `last`. */
  predicate LeasesRise(pacing: seq<PacingEvent>, last: nat) {
    && (forall j, k | 0 <= j < k < |pacing| && pacing[j].Leased? && pacing[k].Leased? ::
          pacing[j].lease < pacing[k].lease)
    && (forall k | 0 <= k < |pacing| && pacing[k].Leased? :: pacing[k].lease <= last)
  }

  /** Neighbouring leases are an interval apart, and the next one has to wait as long. */
  ghost predicate Paced(pacing: seq<PacingEvent>, interval: int, nextPollAt: int) {
    && (forall k | 0 < k < |pacing| && pacing[k].Leased? && pacing[k - 1].Leased? ::
          pacing[k - 1].at + interval <= pacing[k].at)
    && (|pacing| > 0 && pacing[|pacing| - 1].Leased? ==> pacing[|pacing| - 1].at + interval <= nextPollAt)
  }

  ghost predicate PollInv(s: Slot) {
    && (s.task.None? ==> s.pacing == [] && s.pollers == map[] && s.polled == [])
    && (s.task.Some? ==>
          var t := s.task.value.value;
          && Paced(s.pacing, t.pollIntervalMs, t.nextPollAt)
          && (t.status == Creating ==> s.pacing == [])
          && LeasesRise(s.pacing, s.task.value.revision)
          && (forall r | r in s.polled || r in s.pollers :: LeaseListed(s.pacing, r)))
    && Distinct(s.polled) && (forall r | r in s.polled :: r !in s.pollers)
    && (forall r :: r in s.answers <==> r in s.polled)
    && (forall r | r in s.answers :: AskedRightly(s.answers[r]))
  }

  predicate AskedRightly(a: PollAnswer) { OutcomeOf(a).NeedsInput? ==> DistinctKeys(OutcomeOf(a).requests) }

  // what a poll must have answered for the task to be as it is

  predicate SaysDone(a: PollAnswer, t: Task) {
    a.Replied? && a.reply.Done? && t.billing == a.reply.billing
    && t.result == Some(if a.reply.result.Some? then a.reply.result.value else "{}")
  }

  predicate SaysFailed(a: PollAnswer, t: Task) {
    || (a.PollThrew? && t.sanitizedError == Some(a.error))
    || (a.Replied? && a.reply.Broke?
        && t.sanitizedError == Some(if a.reply.error.Some? then a.reply.error.value else "The provider task failed"))
  }

  /** The pending requests are those asked for, but for the keys used. */
  ghost predicate SaysAsk(a: PollAnswer, t: Task) {
    && a.Replied? && a.reply.NeedsInput?
    && forall e :: e in t.inputRequests <==> e in a.reply.requests && e.key !in t.usedInputKeys
  }

  predicate CreationDoubted(t: Task) { t.sanitizedError == Some(CREATE_UNCERTAIN) }

  ghost predicate OutcomeInv(s: Slot) {
    s.task.Some? ==>
      var t := s.task.value.value;
      && (t.status == Completed ==> exists r :: r in s.answers && SaysDone(s.answers[r], t))
      && (t.status == Failed ==> CreationDoubted(t) || exists r :: r in s.answers && SaysFailed(s.answers[r], t))
      && (t.status == InputRequired ==> exists r :: r in s.answers && SaysAsk(s.answers[r], t))
  }

  ghost predicate SlotInv(id: string, s: Slot) {
    TaskInv(id, s) && CellsInv(id, s) && InputInv(id, s) && PollInv(s) && OutcomeInv(s)
  }

  lemma OutcomeStep(p: Pid, id: string, s: Slot, a: Action, nowMs: int)
    requires TaskInv(id, s) && PollInv(s) && OutcomeInv(s) && Enabled(p, id, s, a, nowMs)
    ensures OutcomeInv(Next(p, id, s, a, nowMs))
  {
    hide TaskInv, Answers, Fx.Enabled, Fx.Next, SaysDone, SaysFailed, SaysAsk, Paced, LeasesRise, LeaseListed;
    match a
    case Write(w) => OutcomeOfWrite(p, id, s, w, nowMs);
    case Poll(lease, answer) =>
      assert lease !in s.polled && forall r | r in s.answers :: r != lease;
      assert forall r | r in s.answers :: Next(p, id, s, a, nowMs).answers[r] == s.answers[r];
    case _ =>
  }

  lemma OutcomeOfWrite(p: Pid, id: string, s: Slot, w: TaskWrite, nowMs: int)
    requires OutcomeInv(s) && s.task.Some? && CanWrite(p, id, s, w, nowMs)
    ensures OutcomeInv(Next(p, id, s, Write(w), nowMs))
  {
    var t := s.task.value.value;
    match w
    case PersistOutcome(o) => FiledAsAnswered(t, s.answers[s.task.value.revision], nowMs);
    case AcceptInput(accepted) => RestIsAsked(s, accepted, nowMs);
    case _ => OtherWriteKeeps(t, w, nowMs);
  }

  lemma FiledAsAnswered(t: Task, a: PollAnswer, nowMs: int)
    ensures var u := AfterWrite(t, PersistOutcome(OutcomeOf(a)), nowMs);
            && (u.status == Completed ==> SaysDone(a, u))
            && (u.status == Failed ==> SaysFailed(a, u))
            && (u.status == InputRequired ==> SaysAsk(a, u))
  {
    match OutcomeOf(a)
    case NeedsInput(requests) => SelectFilters(requests, KeySet(requests) - Elements(t.usedInputKeys));
    case _ =>
  }

  lemma RestIsAsked(s: Slot, accepted: seq<Entry>, nowMs: int)
    requires OutcomeInv(s) && s.task.Some? && s.task.value.value.status == InputRequired
    ensures var u := AfterWrite(s.task.value.value, AcceptInput(accepted), nowMs);
            u.status == InputRequired ==> exists r :: r in s.answers && SaysAsk(s.answers[r], u)
  {
    var t := s.task.value.value;
    var u := AfterWrite(t, AcceptInput(accepted), nowMs);
    var r :| r in s.answers && SaysAsk(s.answers[r], t);
    SelectFilters(t.inputRequests, KeySet(t.inputRequests) - KeySet(accepted));
    KeysOfList(accepted);
    assert SaysAsk(s.answers[r], u);
  }

  lemma KeysOfList(es: seq<Entry>)
    ensures forall k :: k in KeyList(es) <==> k in KeySet(es)
  {
    forall k | k in KeySet(es) ensures k in KeyList(es) {
      var i :| 0 <= i < |es| && es[i].key == k;
      assert KeyList(es)[i] == k;
    }
  }

  lemma OtherWriteKeeps(t: Task, w: TaskWrite, nowMs: int)
    requires !w.PersistOutcome? && !w.AcceptInput?
    ensures var u := AfterWrite(t, w, nowMs);
            && (u.status == Completed ==> t.status == Completed && u.result == t.result && u.billing == t.billing)
            && (u.status == Failed ==>
                  CreationDoubted(u) || (t.status == Failed && u.sanitizedError == t.sanitizedError))
            && (u.status == InputRequired ==>
                  t.status == InputRequired && u.inputRequests == t.inputRequests
                  && u.usedInputKeys == t.usedInputKeys)
  {
  }

  lemma TaskStepAccept(id: string, s: Slot, acc: seq<Entry>, nowMs: int, p: Pid)
    requires TaskInv(id, s) && s.task.Some? && CanWrite(p, id, s, AcceptInput(acc), nowMs)
    requires Answers(EpochOf(s.task.value.value), acc)
    ensures TaskInv(id, Next(p, id, s, Write(AcceptInput(acc)), nowMs))
  {
    var t := s.task.value.value;
    SelectFilters(t.inputRequests, KeySet(t.inputRequests) - KeySet(acc));
    UsedStaysDistinct(t.usedInputKeys, acc);
  }

  lemma TaskStepWrite(id: string, s: Slot, w: TaskWrite, nowMs: int, p: Pid)
    requires TaskInv(id, s) && s.task.Some? && CanWrite(p, id, s, w, nowMs)
    requires w.AcceptInput? ==> Answers(EpochOf(s.task.value.value), w.accepted)
    requires w.PersistOutcome? && w.outcome.NeedsInput? ==> DistinctKeys(w.outcome.requests)
    ensures TaskInv(id, Next(p, id, s, Write(w), nowMs))
  {
    var t := s.task.value.value;
    match w
    case PersistOutcome(NeedsInput(requests)) => SelectFilters(requests, KeySet(requests) - Elements(t.usedInputKeys));
    case AcceptInput(acc) => TaskStepAccept(id, s, acc, nowMs, p);
    case _ =>
  }

  /** Journal and provider steps leave settled effects and begun calls as they were. */
  lemma CellStep(p: Pid, id: string, s: Slot, fx: EffectId, act: CellAction, nowMs: int)
    requires TaskInv(id, s) && CellsInv(id, s) && s.task.Some? && fx.jobId == id
    requires Fx.Enabled(p, fx, At(s.cells, fx), act)
    requires fx.kind == ProviderTaskCancel && act.Settle? && act.status == Succeeded ==> act.receipt != NOT_ACKNOWLEDGED
    requires fx.kind == ProviderTaskCreate ==>
               && !act.Resume? && (act.Claim? ==> s.maker == Some(p))
               && (act.Settle? && act.status == Succeeded ==> s.task.value.value.providerTaskId.Some?)
    ensures var s' := s.(cells := s.cells[fx := Fx.Next(p, fx, At(s.cells, fx), act, nowMs)]);
            TaskInv(id, s') && CellsInv(id, s')
  {
    StepKeepsInv(p, fx, At(s.cells, fx), act, nowMs);
  }

  lemma UsedStaysDistinct(used: seq<string>, acc: seq<Entry>)
    requires Distinct(used) && DistinctKeys(acc) && KeySet(acc) !! Elements(used)
    ensures Distinct(used + KeyList(acc)) && Elements(used + KeyList(acc)) == Elements(used) + KeySet(acc)
  {
    forall i, j | 0 <= i < j < |used + KeyList(acc)| ensures (used + KeyList(acc))[i] != (used + KeyList(acc))[j] {
      if i < |used| <= j {
        assert acc[j - |used|].key in KeySet(acc) && used[i] in Elements(used);
      }
    }
    forall k | k in Elements(used + KeyList(acc)) ensures k in Elements(used) + KeySet(acc) {
      var i :| 0 <= i < |used + KeyList(acc)| && (used + KeyList(acc))[i] == k;
      if i >= |used| { assert acc[i - |used|].key == k; }
    }
    forall k | k in KeySet(acc) ensures k in Elements(used + KeyList(acc)) {
      var e :| e in acc && e.key == k;
      var i :| 0 <= i < |acc| && acc[i] == e;
      assert (used + KeyList(acc))[|used| + i] == k;
    }
  }

  lemma PollStep(p: Pid, id: string, s: Slot, a: Action, nowMs: int)
    requires TaskInv(id, s) && PollInv(s) && Enabled(p, id, s, a, nowMs)
    ensures PollInv(Next(p, id, s, a, nowMs))
  {
    hide Answers, Fx.Enabled, Fx.Next;
    match a
    case Write(w) => PollWriteStep(p, id, s, w, nowMs);
    case NewTask(_) =>
    case Poll(lease, _) =>
    case _ =>
  }

  /** What a write does to the fields the poll pacing depends on. */
  lemma PacingOfWrite(t: Task, w: TaskWrite, nowMs: int)
    ensures var u := AfterWrite(t, w, nowMs);
            && u.pollIntervalMs == t.pollIntervalMs
            && (w.TakeLease? ==> u.nextPollAt == nowMs + t.pollIntervalMs && u.status == t.status)
            && (w.AcceptInput? || w.SaveHandle? ==> u.nextPollAt == nowMs && u.status != Creating)
            && (!w.TakeLease? && !w.AcceptInput? && !w.SaveHandle? ==>
                  u.nextPollAt == t.nextPollAt && (u.status == Creating ==> t.status == Creating))
  {
    hide Select, KeySet, KeyList, Elements;
    match w
    case PersistOutcome(o) => match o { case _ => }
    case _ =>
  }

  lemma PollWriteStep(p: Pid, id: string, s: Slot, w: TaskWrite, nowMs: int)
    requires PollInv(s) && s.task.Some? && s.task.value.value.pollIntervalMs > 0 && CanWrite(p, id, s, w, nowMs)
    ensures PollInv(Next(p, id, s, Write(w), nowMs))
  {
    hide AfterWrite, Settled, Answers, AskedRightly, OutcomeOf;
    PacingOfWrite(s.task.value.value, w, nowMs);
    var s' := Next(p, id, s, Write(w), nowMs);
    forall r | r in s'.polled || r in s'.pollers ensures LeaseListed(s'.pacing, r) {
      if r in s.polled || r in s.pollers {
        var k :| 0 <= k < |s.pacing| && s.pacing[k].Leased? && s.pacing[k].lease == r;
        assert s'.pacing[k] == s.pacing[k];
      } else {
        assert s'.pacing[|s.pacing|] == Leased(nowMs, r);
      }
    }
    forall r | r in s.polled || r in s.pollers ensures r <= s.task.value.revision {
      var k :| 0 <= k < |s.pacing| && s.pacing[k].Leased? && s.pacing[k].lease == r;
    }
  }

  /** A call about to be made answers the current epoch, which nobody has answered. */
  lemma DeliveryIsNew(p: Pid, id: string, s: Slot, epoch: OperationKey, acc: seq<Entry>, nowMs: int)
    requires JournalInv(s.cells) && InputInv(id, s) && Enabled(p, id, s, Deliver(epoch, acc), nowMs)
    ensures Current(s, epoch)
    ensures forall d | d in s.deliveries :: d.epoch != epoch && KeySet(d.accepted) !! KeySet(acc)
  {
    assert Fx.Inv(UpdateFx(id, epoch), s.cells[UpdateFx(id, epoch)]);
    assert s.cells[UpdateFx(id, epoch)].begun == 0;
    assert forall d | d in s.deliveries :: d.epoch != epoch;
    assert Current(s, epoch);
    forall d | d in s.deliveries ensures KeySet(d.accepted) !! KeySet(acc) { assert Passed(s, d); }
  }

  lemma InputStepDeliver(p: Pid, id: string, s: Slot, epoch: OperationKey, acc: seq<Entry>, nowMs: int)
    requires JournalInv(s.cells) && InputInv(id, s) && Enabled(p, id, s, Deliver(epoch, acc), nowMs)
    ensures InputInv(id, Next(p, id, s, Deliver(epoch, acc), nowMs))
  {
    DeliveryIsNew(p, id, s, epoch, acc, nowMs);
    DeliverChanges(p, id, s, epoch, acc, nowMs);
    hide JournalInv, Answers, Next, Enabled, Settled;
    var s' := Next(p, id, s, Deliver(epoch, acc), nowMs);
    assert forall d :: d in s.deliveries ==> d in s'.deliveries;
  }

  lemma DeliverChanges(p: Pid, id: string, s: Slot, epoch: OperationKey, acc: seq<Entry>, nowMs: int)
    requires Enabled(p, id, s, Deliver(epoch, acc), nowMs)
    ensures epoch in s.past && Answers(epoch, acc)
    ensures var s' := Next(p, id, s, Deliver(epoch, acc), nowMs);
            && s'.deliveries == s.deliveries + [Delivery(epoch, acc)] && s'.past == s.past && s'.task == s.task
            && (forall fx | fx in s.cells :: fx in s'.cells && s'.cells[fx].begun >= s.cells[fx].begun)
            && UpdateFx(id, epoch) in s'.cells && s'.cells[UpdateFx(id, epoch)].begun > 0
            && (forall fx | fx in s'.cells && Settled(s'.cells[fx]) ::
                  fx in s.cells && Settled(s.cells[fx]) && s.cells[fx].record == s'.cells[fx].record)
  {
    hide Answers;
  }

  lemma InputStepJournal(p: Pid, id: string, s: Slot, fx: EffectId, act: CellAction, nowMs: int)
    requires InputInv(id, s) && Enabled(p, id, s, Journalled(fx, act), nowMs)
    ensures InputInv(id, Next(p, id, s, Journalled(fx, act), nowMs))
  {
    hide Answers, JournalInv;
    var s' := Next(p, id, s, Journalled(fx, act), nowMs);
    assert forall ep :: Current(s, ep) <==> Current(s', ep);
    assert forall d :: Passed(s, d) <==> Passed(s', d);
    assert forall g | g in s.cells :: g in s'.cells && s'.cells[g].begun >= s.cells[g].begun;
    assert forall g | g in s'.cells && g != fx :: g in s.cells && s'.cells[g] == s.cells[g];
  }

  lemma InputStepAccept(p: Pid, id: string, s: Slot, acc: seq<Entry>, nowMs: int)
    requires TaskInv(id, s) && InputInv(id, s) && s.task.Some? && CanWrite(p, id, s, AcceptInput(acc), nowMs)
    ensures InputInv(id, Next(p, id, s, Write(AcceptInput(acc)), nowMs))
  {
    var s' := Next(p, id, s, Write(AcceptInput(acc)), nowMs);
    var t := s.task.value.value;
    var e := Delivery(EpochOf(t), acc);
    assert Answers(e.epoch, e.accepted);
    UsedStaysDistinct(t.usedInputKeys, acc);
    forall d | d in s.deliveries ensures Passed(s', d) {
      if !Passed(s, d) { OneDeliveryPerEpoch(s, d, e); }
    }
    forall ep | ep in s'.past
      ensures Current(s', ep) || exists d :: d in s'.deliveries && d.epoch == ep && Passed(s', d)
    {
      if ep in s.past {
        if Current(s, ep) { assert e in s'.deliveries && Passed(s', e); }
      }
    }
  }

  /** Every other write keeps the used keys, and leaves an unanswered epoch only by
      cancelling or failing the task. */
  lemma InputStepWrite(p: Pid, id: string, s: Slot, w: TaskWrite, nowMs: int)
    requires TaskInv(id, s) && InputInv(id, s) && s.task.Some? && CanWrite(p, id, s, w, nowMs) && !w.AcceptInput?
    ensures InputInv(id, Next(p, id, s, Write(w), nowMs))
  {
    hide JournalInv, Settled, Answers, Select, KeyList, Fx.Inv;
    var s' := Next(p, id, s, Write(w), nowMs);
    assert s'.task.value.value.usedInputKeys == s.task.value.value.usedInputKeys;
    assert forall ep | ep in s.past :: Current(s, ep) ==> Current(s', ep);
    assert forall d :: Passed(s, d) <==> Passed(s', d);
  }

  lemma OneDeliveryPerEpoch(s: Slot, d: Delivery, e: Delivery)
    requires forall i, j | 0 <= i < j < |s.deliveries| :: s.deliveries[i].epoch != s.deliveries[j].epoch
    requires d in s.deliveries && e in s.deliveries && d.epoch == e.epoch
    ensures d == e
  {
    var i :| 0 <= i < |s.deliveries| && s.deliveries[i] == d;
    var j :| 0 <= j < |s.deliveries| && s.deliveries[j] == e;
  }

  lemma InputStepPoll(p: Pid, id: string, s: Slot, lease: nat, answer: PollAnswer, nowMs: int)
    requires InputInv(id, s) && Enabled(p, id, s, Poll(lease, answer), nowMs)
    ensures InputInv(id, Next(p, id, s, Poll(lease, answer), nowMs))
  {
    var s' := Next(p, id, s, Poll(lease, answer), nowMs);
    assert forall ep :: Current(s, ep) <==> Current(s', ep);
    assert forall d :: Passed(s, d) <==> Passed(s', d);
  }

  // ------------------------------------------------------------------ what never changes back

  predicate Frozen(t: Task, u: Task) {
    && t.taskId == u.taskId && t.ownerId == u.ownerId && t.credentialBinding == u.credentialBinding
    && t.providerId == u.providerId && t.operationInput == u.operationInput && t.idempotencyKey == u.idempotencyKey
    && t.createdAt == u.createdAt && t.expiresAt == u.expiresAt && t.ttlMs == u.ttlMs
    && t.pollIntervalMs == u.pollIntervalMs
  }

  /** Revision-fenced, identity frozen, provider handle write-once, terminal states
      absorbing with their result, used keys and cancellation marks only added. */
  predicate TaskGrows(r: Record<Task>, r': Record<Task>) {
    var t, u := r.value, r'.value;
    && r.revision <= r'.revision && (r.revision == r'.revision ==> r == r')
    && Frozen(t, u)
    && (t.providerTaskId.Some? ==> u.providerTaskId == t.providerTaskId)
    && (Terminal(t.status) ==> u.status == t.status && u.result == t.result && u.sanitizedError == t.sanitizedError)
    && t.usedInputKeys <= u.usedInputKeys
    && (t.callerCancelled ==> u.callerCancelled) && (t.upstreamCancelled ==> u.upstreamCancelled)
    && (t.groundlanePollingCancelled ==> u.groundlanePollingCancelled)
    && (t.upstreamCancelRequested ==> u.upstreamCancelRequested)
  }

  predicate Grows(s: Slot, s': Slot) {
    && (s.task.Some? ==> s'.task.Some? && TaskGrows(s.task.value, s'.task.value))
    && (s.task.Some? ==> s'.maker == s.maker)
    && s.past <= s'.past && s.deliveries <= s'.deliveries && s.pacing <= s'.pacing && s.polled <= s'.polled
    && (forall r | r in s.answers :: r in s'.answers && s'.answers[r] == s.answers[r])
  }

  lemma WriteGrows(r: Record<Task>, w: TaskWrite, nowMs: int)
    requires Terminal(r.value.status) ==> w.MarkUpstreamCancelled? || w.StopWaiting?
    requires w.SaveHandle? ==> r.value.providerTaskId.None?
    ensures var t := AfterWrite(r.value, w, nowMs); TaskGrows(r, Bump(r, t, nowMs, Some(t.expiresAt)))
  {
    match w
    case PersistOutcome(o) => OutcomeGrows(r, o, nowMs);
    case AcceptInput(accepted) => AcceptGrows(r, accepted, nowMs);
    case _ => PlainWriteGrows(r, w, nowMs);
  }

  lemma OutcomeGrows(r: Record<Task>, o: PollOutcome, nowMs: int)
    requires !Terminal(r.value.status)
    ensures var t := AfterWrite(r.value, PersistOutcome(o), nowMs); TaskGrows(r, Bump(r, t, nowMs, Some(t.expiresAt)))
  {
    hide Select, KeySet, Elements;
    match o { case _ => }
  }

  lemma AcceptGrows(r: Record<Task>, accepted: seq<Entry>, nowMs: int)
    requires !Terminal(r.value.status)
    ensures var t := AfterWrite(r.value, AcceptInput(accepted), nowMs);
            TaskGrows(r, Bump(r, t, nowMs, Some(t.expiresAt)))
  {
    hide Select, KeySet, KeyList;
  }

  lemma PlainWriteGrows(r: Record<Task>, w: TaskWrite, nowMs: int)
    requires !w.PersistOutcome? && !w.AcceptInput?
    requires Terminal(r.value.status) ==> w.MarkUpstreamCancelled? || w.StopWaiting?
    requires w.SaveHandle? ==> r.value.providerTaskId.None?
    ensures var t := AfterWrite(r.value, w, nowMs); TaskGrows(r, Bump(r, t, nowMs, Some(t.expiresAt)))
  {
  }

  lemma StepGrows(p: Pid, id: string, s: Slot, a: Action, nowMs: int)
    requires Enabled(p, id, s, a, nowMs)
    requires s.task.Some? && s.task.value.value.status == Creating ==> s.task.value.value.providerTaskId.None?
    requires forall r | r in s.answers :: r !in s.pollers
    ensures Grows(s, Next(p, id, s, a, nowMs))
  {
    if a.Write? { WriteGrows(s.task.value, a.change, nowMs); }
  }

  lemma StepKeepsSlotInv(p: Pid, id: string, s: Slot, a: Action, nowMs: int)
    requires SlotInv(id, s) && Enabled(p, id, s, a, nowMs)
    ensures SlotInv(id, Next(p, id, s, a, nowMs)) && Grows(s, Next(p, id, s, a, nowMs))
  {
    hide TaskInv, CellsInv, InputInv, OutcomeInv, PollInv;
    StepBasics(id, s);
    StepGrows(p, id, s, a, nowMs);
    PollStep(p, id, s, a, nowMs);
    OutcomeStep(p, id, s, a, nowMs);
    InputStep(p, id, s, a, nowMs);
  }

  lemma StepBasics(id: string, s: Slot)
    requires TaskInv(id, s) && PollInv(s)
    ensures s.task.Some? && s.task.value.value.status == Creating ==> s.task.value.value.providerTaskId.None?
    ensures forall r | r in s.answers :: r !in s.pollers
    ensures forall r | r in s.answers :: AskedRightly(s.answers[r])
  {
  }

  lemma InputStep(p: Pid, id: string, s: Slot, a: Action, nowMs: int)
    requires TaskInv(id, s) && CellsInv(id, s) && InputInv(id, s) && Enabled(p, id, s, a, nowMs)
    requires forall r | r in s.answers :: AskedRightly(s.answers[r])
    ensures var s' := Next(p, id, s, a, nowMs); TaskInv(id, s') && CellsInv(id, s') && InputInv(id, s')
  {
    match a
    case Write(w) => InputStepAnyWrite(p, id, s, w, nowMs);
    case Journalled(fx, act) =>
      CellStep(p, id, s, fx, act, nowMs);
      InputStepJournal(p, id, s, fx, act, nowMs);
    case Deliver(ep, acc) =>
      CellStep(p, id, s, UpdateFx(id, ep), Begin, nowMs);
      InputStepDeliver(p, id, s, ep, acc, nowMs);
    case NewTask(_) =>
    case Poll(lease, answer) =>
      InputStepPoll(p, id, s, lease, answer, nowMs);
  }

  lemma InputStepAnyWrite(p: Pid, id: string, s: Slot, w: TaskWrite, nowMs: int)
    requires TaskInv(id, s) && CellsInv(id, s) && InputInv(id, s) && s.task.Some? && CanWrite(p, id, s, w, nowMs)
    requires forall r | r in s.answers :: AskedRightly(s.answers[r])
    ensures var s' := Next(p, id, s, Write(w), nowMs); TaskInv(id, s') && CellsInv(id, s') && InputInv(id, s')
  {
    hide JournalInv, AfterWrite, Settled;
    if w.AcceptInput? {
      InputStepAccept(p, id, s, w.accepted, nowMs);
      assert Answers(EpochOf(s.task.value.value), w.accepted) by {
        var d := Delivery(EpochOf(s.task.value.value), w.accepted);
        assert d in s.deliveries && Answers(d.epoch, d.accepted);
      }
    } else {
      InputStepWrite(p, id, s, w, nowMs);
    }
    TaskStepWrite(id, s, w, nowMs, p);
  }

  /** What worker `me` may rely on while others run. */
  ghost predicate SlotRely(me: Pid, s: Slot, s': Slot) {
    && Grows(s, s')
    && (forall fx :: Fx.Rely(me, At(s.cells, fx), At(s'.cells, fx)))
    && (forall r | r in s.pollers && s.pollers[r] == me :: r in s'.pollers && s'.pollers[r] == me)
    && (forall fx | fx in s.cells && Mine(me, fx, s.cells[fx]) :: fx in s'.cells && s'.cells[fx] == s.cells[fx])
  }

  /** A creation or a delivery of mine is mine alone. */
  predicate Mine(me: Pid, fx: EffectId, c: Cell) {
    (fx.kind == ProviderTaskCreate || fx.kind == ProviderTaskUpdate) && c.holder == me
  }

  /** A creation of mine that nobody but me can put on record as succeeded. */
  predicate Unsettled(me: Pid, fx: EffectId, c: Cell) {
    fx.kind == ProviderTaskCreate && c.holder == me && c.Status() != Succeeded
  }

  lemma OthersStepIsRely(me: Pid, p: Pid, id: string, s: Slot, a: Action, nowMs: int)
    requires p != me && SlotInv(id, s) && Enabled(p, id, s, a, nowMs)
    ensures SlotRely(me, s, Next(p, id, s, a, nowMs))
  {
    OthersStepOnCells(me, p, id, s, a, nowMs);
    OthersStepOnMine(me, p, id, s, a, nowMs);
    hide TaskInv, CellsInv, InputInv, PollInv, OutcomeInv, AfterWrite, CanWrite, Answers, TaskGrows, Fx.Rely,
         Fx.Enabled, Fx.Next, JournalInv, Mine;
    StepGrows(p, id, s, a, nowMs);
  }

  lemma OthersStepOnMine(me: Pid, p: Pid, id: string, s: Slot, a: Action, nowMs: int)
    requires p != me && Enabled(p, id, s, a, nowMs)
    ensures var s' := Next(p, id, s, a, nowMs);
            forall fx | fx in s.cells && Mine(me, fx, s.cells[fx]) :: fx in s'.cells && s'.cells[fx] == s.cells[fx]
  {
    hide AfterWrite, CanWrite, Answers, Fx.Next;
  }

  lemma OthersStepOnCells(me: Pid, p: Pid, id: string, s: Slot, a: Action, nowMs: int)
    requires p != me && JournalInv(s.cells) && Enabled(p, id, s, a, nowMs)
    ensures forall fx :: Fx.Rely(me, At(s.cells, fx), At(Next(p, id, s, a, nowMs).cells, fx))
  {
    hide Fx.Rely, Fx.Enabled, Fx.Next, AfterWrite, CanWrite, Answers;
    var s' := Next(p, id, s, a, nowMs);
    match a {
      case Journalled(fx, act) => OthersKeepRely(p, me, fx, At(s.cells, fx), act, nowMs);
      case Deliver(ep, acc) => OthersKeepRely(p, me, UpdateFx(id, ep), At(s.cells, UpdateFx(id, ep)), Begin, nowMs);
      case _ =>
    }
    forall fx ensures Fx.Rely(me, At(s.cells, fx), At(s'.cells, fx)) {
      if At(s'.cells, fx) == At(s.cells, fx) { RelyReflexive(me, At(s.cells, fx)); }
    }
  }

  lemma CellStays(me: Pid, s: Slot, s': Slot, fx: EffectId)
    requires SlotRely(me, s, s') && fx in s.cells
    ensures fx in s'.cells
  {
    assert Fx.Rely(me, At(s.cells, fx), At(s'.cells, fx));
  }

  lemma SlotRelyRefl(me: Pid, s: Slot)
    ensures SlotRely(me, s, s)
  {
  }

  lemma SlotRelyTransitive(me: Pid, id: string, a: Slot, b: Slot, c: Slot)
    requires SlotInv(id, a) && SlotInv(id, b) && SlotInv(id, c)
    requires SlotRely(me, a, b) && SlotRely(me, b, c)
    ensures SlotRely(me, a, c)
  {
    ComposeRely(me, a.cells, b.cells, c.cells);
    GrowsTransitive(a, b, c);
    hide Fx.Rely, Grows, SlotInv;
  }

  // ------------------------------------------------------------------ whole runs

  datatype TaskEvent = TaskEvent(pid: Pid, action: Action, nowMs: int)

  function PerformTask(id: string, s: Slot, e: TaskEvent): Slot {
    if Enabled(e.pid, id, s, e.action, e.nowMs) then Next(e.pid, id, s, e.action, e.nowMs) else s
  }

  /** The life of one task under a schedule; a step that is not enabled is skipped. */
  function ExecuteTask(id: string, s: Slot, schedule: seq<TaskEvent>): Slot
    decreases |schedule|
  {
    if schedule == [] then s else ExecuteTask(id, PerformTask(id, s, schedule[0]), schedule[1..])
  }

  lemma {:induction false} TaskRunKeepsInv(id: string, s: Slot, schedule: seq<TaskEvent>)
    requires SlotInv(id, s)
    ensures SlotInv(id, ExecuteTask(id, s, schedule)) && Grows(s, ExecuteTask(id, s, schedule))
    decreases |schedule|
  {
    hide SlotInv, Enabled, Next;
    if schedule != [] {
      var e := schedule[0];
      if Enabled(e.pid, id, s, e.action, e.nowMs) {
        StepKeepsSlotInv(e.pid, id, s, e.action, e.nowMs);
      }
      TaskRunKeepsInv(id, PerformTask(id, s, e), schedule[1..]);
      GrowsTransitive(s, PerformTask(id, s, e), ExecuteTask(id, s, schedule));
    }
  }

  lemma GrowsTransitive(a: Slot, b: Slot, c: Slot)
    requires Grows(a, b) && Grows(b, c)
    ensures Grows(a, c)
  {
    if a.task.Some? {
      assert a.task.value.value.usedInputKeys <= b.task.value.value.usedInputKeys <= c.task.value.value.usedInputKeys;
    }
  }

  /** Any number of steps of the other workers is covered by `SlotRely`. */
  lemma {:induction false} OthersTaskRunIsRely(me: Pid, id: string, s: Slot, schedule: seq<TaskEvent>)
    requires SlotInv(id, s) && forall i | 0 <= i < |schedule| :: schedule[i].pid != me
    ensures SlotInv(id, ExecuteTask(id, s, schedule)) && SlotRely(me, s, ExecuteTask(id, s, schedule))
    decreases |schedule|
  {
    hide SlotInv, Enabled, Next, SlotRely;
    SlotRelyRefl(me, s);
    if schedule != [] {
      var e := schedule[0];
      if Enabled(e.pid, id, s, e.action, e.nowMs) {
        StepKeepsSlotInv(e.pid, id, s, e.action, e.nowMs);
        OthersStepIsRely(me, e.pid, id, s, e.action, e.nowMs);
      }
      OthersTaskRunIsRely(me, id, PerformTask(id, s, e), schedule[1..]);
      SlotRelyTransitive(me, id, s, PerformTask(id, s, e), ExecuteTask(id, s, schedule));
    }
  }

  lemma EmptySlotInv(id: string)
    ensures SlotInv(id, EMPTY)
  {
  }

  /** Each input key reaches provider.update at most once, in every interleaving with any
      crashes: two entries ever sent with the same key are one entry of one call. */
  lemma InputKeySentAtMostOnce(id: string, schedule: seq<TaskEvent>, i: nat, j: nat, x: nat, y: nat)
    requires var ds := ExecuteTask(id, EMPTY, schedule).deliveries;
             i < |ds| && j < |ds| && x < |ds[i].accepted| && y < |ds[j].accepted|
             && ds[i].accepted[x].key == ds[j].accepted[y].key
    ensures i == j && x == y
  {
    TaskRunKeepsInv(id, EMPTY, schedule);
    var s := ExecuteTask(id, EMPTY, schedule);
    var a, b := s.deliveries[i], s.deliveries[j];
    assert a in s.deliveries && b in s.deliveries && Answers(a.epoch, a.accepted) && Answers(b.epoch, b.accepted);
    var k := a.accepted[x].key;
    assert k in KeySet(a.accepted) && k in KeySet(b.accepted);
  }

  /** In every run the task is what the provider said: a completed task carries result and
      billing of an answer "completed", a failed one the error of an answer "failed" or of a
      poll that threw unless its creation was in doubt, a waiting one exactly the requests
      some answer asked for that are not used up, each under a poll lease of its own. */
  lemma OutcomesAreAnswers(id: string, schedule: seq<TaskEvent>)
    requires ExecuteTask(id, EMPTY, schedule).task.Some?
    ensures var s := ExecuteTask(id, EMPTY, schedule); var t := s.task.value.value;
            && (t.status == Completed ==> exists r :: r in s.answers && SaysDone(s.answers[r], t))
            && (t.status == Failed ==> CreationDoubted(t) || exists r :: r in s.answers && SaysFailed(s.answers[r], t))
            && (t.status == InputRequired ==> exists r :: r in s.answers && SaysAsk(s.answers[r], t))
            && forall r | r in s.answers :: LeaseListed(s.pacing, r)
  {
    EmptySlotInv(id);
    TaskRunKeepsInv(id, EMPTY, schedule);
  }

  predicate Created(id: string, s: Slot) {
    s.task.Some? && CreateFx(id) in s.cells && s.cells[CreateFx(id)].Status() == Succeeded
  }

  ghost predicate FailedByAnswer(s: Slot) {
    s.task.Some? && s.task.value.value.status == Failed ==>
      exists r :: r in s.answers && SaysFailed(s.answers[r], s.task.value.value)
  }

  /** And once the creation is on record nothing but such an answer fails a task. */
  lemma CreatedTaskFailsByAnswer(id: string, before: seq<TaskEvent>, after: seq<TaskEvent>)
    requires Created(id, ExecuteTask(id, EMPTY, before))
    requires ExecuteTask(id, EMPTY, before).task.value.value.status != Failed
    ensures FailedByAnswer(ExecuteTask(id, ExecuteTask(id, EMPTY, before), after))
  {
    EmptySlotInv(id);
    TaskRunKeepsInv(id, EMPTY, before);
    FailedByAnswerStays(id, ExecuteTask(id, EMPTY, before), after);
  }

  lemma {:induction false} FailedByAnswerStays(id: string, s: Slot, schedule: seq<TaskEvent>)
    requires SlotInv(id, s) && Created(id, s) && FailedByAnswer(s)
    ensures FailedByAnswer(ExecuteTask(id, s, schedule))
    decreases |schedule|
  {
    hide SlotInv, Enabled, Next, Created, FailedByAnswer;
    if schedule != [] {
      var e := schedule[0];
      if Enabled(e.pid, id, s, e.action, e.nowMs) {
        StepKeepsSlotInv(e.pid, id, s, e.action, e.nowMs);
        FailedByAnswerStep(e.pid, id, s, e.action, e.nowMs);
      }
      FailedByAnswerStays(id, PerformTask(id, s, e), schedule[1..]);
    }
  }

  lemma FailedByAnswerStep(p: Pid, id: string, s: Slot, a: Action, nowMs: int)
    requires SlotInv(id, s) && Created(id, s) && FailedByAnswer(s) && Enabled(p, id, s, a, nowMs)
    ensures Created(id, Next(p, id, s, a, nowMs)) && FailedByAnswer(Next(p, id, s, a, nowMs))
  {
    hide SaysFailed, InputInv, OutcomeInv, Answers, Paced, LeasesRise, LeaseListed;
    CreateCellOf(id, s);
    match a
    case Write(w) => FailedByAnswerWrite(p, id, s, w, nowMs);
    case Poll(lease, answer) =>
      assert forall r | r in s.answers :: Next(p, id, s, a, nowMs).answers[r] == s.answers[r];
    case _ =>
  }

  lemma CreateCellOf(id: string, s: Slot)
    requires SlotInv(id, s) && Created(id, s)
    ensures Fx.Inv(CreateFx(id), s.cells[CreateFx(id)]) && s.task.value.value.status != Creating
  {
  }

  lemma FailedByAnswerWrite(p: Pid, id: string, s: Slot, w: TaskWrite, nowMs: int)
    requires s.task.Some? && s.task.value.value.status != Creating && Created(id, s) && FailedByAnswer(s)
    requires CanWrite(p, id, s, w, nowMs)
    ensures FailedByAnswer(Next(p, id, s, Write(w), nowMs))
  {
    var t := s.task.value.value;
    match w
    case PersistOutcome(_) => FiledAsAnswered(t, s.answers[s.task.value.revision], nowMs);
    case AcceptInput(_) =>
    case _ => OtherWriteKeeps(t, w, nowMs);
  }

  /** Pending keys are never used keys, used keys are never listed twice, and along any
      run the used list only grows at its end. */
  lemma UsedInputKeysOnlyGrow(id: string, before: seq<TaskEvent>, after: seq<TaskEvent>)
    requires ExecuteTask(id, EMPTY, before).task.Some?
    ensures var s, s' := ExecuteTask(id, EMPTY, before), ExecuteTask(id, ExecuteTask(id, EMPTY, before), after);
            && s'.task.Some?
            && s.task.value.value.usedInputKeys <= s'.task.value.value.usedInputKeys
            && Distinct(s'.task.value.value.usedInputKeys)
            && KeySet(s'.task.value.value.inputRequests) !! Elements(s'.task.value.value.usedInputKeys)
  {
    TaskRunKeepsInv(id, EMPTY, before);
    TaskRunKeepsInv(id, ExecuteTask(id, EMPTY, before), after);
  }

  /** Whatever runs later, a terminal task keeps its status, result and error, and every
      task keeps its identity, owner, credential, input, expiry and provider handle. */
  lemma TerminalIsAbsorbing(id: string, before: seq<TaskEvent>, after: seq<TaskEvent>)
    requires ExecuteTask(id, EMPTY, before).task.Some?
    ensures var s, s' := ExecuteTask(id, EMPTY, before), ExecuteTask(id, ExecuteTask(id, EMPTY, before), after);
            && s'.task.Some? && Frozen(s.task.value.value, s'.task.value.value)
            && (s.task.value.value.providerTaskId.Some? ==>
                  s'.task.value.value.providerTaskId == s.task.value.value.providerTaskId)
            && (Terminal(s.task.value.value.status) ==>
                  && s'.task.value.value.status == s.task.value.value.status
                  && s'.task.value.value.result == s.task.value.value.result
                  && s'.task.value.value.sanitizedError == s.task.value.value.sanitizedError)
  {
    TaskRunKeepsInv(id, EMPTY, before);
    TaskRunKeepsInv(id, ExecuteTask(id, EMPTY, before), after);
  }

  /** provider.create is begun at most once for a task and only for the worker that created
      the record, a task that works, waits or has completed holds the handle of that one
      call, a receipt for it is on record only behind the handle, and an upstream
      cancellation is reported only for a cancelled task and only after a provider
      acknowledgement. */
  lemma ProviderEvidence(id: string, schedule: seq<TaskEvent>)
    ensures var s := ExecuteTask(id, EMPTY, schedule);
            && (CreateFx(id) in s.cells ==>
                  s.cells[CreateFx(id)].begun <= 1 && s.maker == Some(s.cells[CreateFx(id)].holder))
            && (CancelFx(id) in s.cells ==> s.cells[CancelFx(id)].open <= 1)
            && (s.task.Some? ==>
                  var t := s.task.value.value;
                  && (t.status == Working || t.status == InputRequired || t.status == Completed ==>
                        t.providerTaskId.Some?)
                  && (t.providerTaskId.Some? ==> CreateFx(id) in s.cells && s.cells[CreateFx(id)].begun == 1)
                  && (CreateFx(id) in s.cells && s.cells[CreateFx(id)].Status() == Succeeded ==> t.providerTaskId.Some?)
                  && (t.upstreamCancelled ==>
                        t.status == Cancelled && CancelFx(id) in s.cells && s.cells[CancelFx(id)].acks > 0))
  {
    TaskRunKeepsInv(id, EMPTY, schedule);
  }

  /** No cancellation is open once its acknowledgement is recorded, none begins later,
      and the record stays. */
  lemma CancelIsOver(id: string, before: seq<TaskEvent>, after: seq<TaskEvent>)
    requires var s := ExecuteTask(id, EMPTY, before); CancelFx(id) in s.cells && Settled(s.cells[CancelFx(id)])
    ensures var s, s' := ExecuteTask(id, EMPTY, before), ExecuteTask(id, ExecuteTask(id, EMPTY, before), after);
            && s.cells[CancelFx(id)].open == 0 && s.cells[CancelFx(id)].acks > 0
            && CancelFx(id) in s'.cells && s'.cells[CancelFx(id)] == s.cells[CancelFx(id)]
  {
    TaskRunKeepsInv(id, EMPTY, before);
    var s := ExecuteTask(id, EMPTY, before);
    assert Fx.Inv(CancelFx(id), s.cells[CancelFx(id)]);
    SettledCancelStays(id, s, after);
  }

  lemma {:induction false} SettledCancelStays(id: string, s: Slot, schedule: seq<TaskEvent>)
    requires SlotInv(id, s) && CancelFx(id) in s.cells && Settled(s.cells[CancelFx(id)])
    ensures var s' := ExecuteTask(id, s, schedule);
            CancelFx(id) in s'.cells && s'.cells[CancelFx(id)] == s.cells[CancelFx(id)]
    decreases |schedule|
  {
    hide SlotInv, Enabled, Next;
    if schedule != [] {
      var e := schedule[0];
      if Enabled(e.pid, id, s, e.action, e.nowMs) {
        StepKeepsSlotInv(e.pid, id, s, e.action, e.nowMs);
        SettledCancelStep(e.pid, id, s, e.action, e.nowMs);
      }
      SettledCancelStays(id, PerformTask(id, s, e), schedule[1..]);
    }
  }

  lemma SettledCancelStep(p: Pid, id: string, s: Slot, a: Action, nowMs: int)
    requires SlotInv(id, s) && CancelFx(id) in s.cells && Settled(s.cells[CancelFx(id)]) && Enabled(p, id, s, a, nowMs)
    ensures var s' := Next(p, id, s, a, nowMs);
            CancelFx(id) in s'.cells && s'.cells[CancelFx(id)] == s.cells[CancelFx(id)]
  {
    hide TaskInv, InputInv, PollInv, AfterWrite, CanWrite, Answers;
    assert Fx.Inv(CancelFx(id), s.cells[CancelFx(id)]);
  }

  /** Poll pacing: of two polls of the provider the one under the later lease was leased
      as many intervals after the other as there are lease steps between them, unless an
      accepted update came between; and no lease is polled twice. */
  lemma PollsAreSpaced(id: string, schedule: seq<TaskEvent>, a: nat, b: nat)
    requires var s := ExecuteTask(id, EMPTY, schedule); a in s.polled && b in s.polled && a < b
    ensures var s := ExecuteTask(id, EMPTY, schedule);
            && s.task.Some? && Distinct(s.polled)
            && exists i, j | 0 <= i < j < |s.pacing| ::
                && s.pacing[i].Leased? && s.pacing[i].lease == a && s.pacing[j].Leased? && s.pacing[j].lease == b
                && ((forall k | i < k < j :: s.pacing[k].Leased?) ==>
                      s.pacing[i].at + (j - i) * s.task.value.value.pollIntervalMs <= s.pacing[j].at)
  {
    hide ExecuteTask, TaskInv, CellsInv, InputInv, OutcomeInv;
    EmptySlotInv(id);
    TaskRunKeepsInv(id, EMPTY, schedule);
    var s := ExecuteTask(id, EMPTY, schedule);
    assert LeaseListed(s.pacing, a) && LeaseListed(s.pacing, b);
    var i :| 0 <= i < |s.pacing| && s.pacing[i].Leased? && s.pacing[i].lease == a;
    var j :| 0 <= j < |s.pacing| && s.pacing[j].Leased? && s.pacing[j].lease == b;
    assert i < j;
    if forall k | i < k < j :: s.pacing[k].Leased? {
      LeasesAreSpaced(s.pacing, s.task.value.value.pollIntervalMs, s.task.value.value.nextPollAt, i, j);
    }
  }

  lemma {:induction false} LeasesAreSpaced(pacing: seq<PacingEvent>, interval: int, nextPollAt: int, i: nat, j: nat)
    requires Paced(pacing, interval, nextPollAt) && i <= j < |pacing| && forall k | i <= k <= j :: pacing[k].Leased?
    ensures pacing[i].at + (j - i) * interval <= pacing[j].at
    decreases j
  {
    if i < j {
      LeasesAreSpaced(pacing, interval, nextPollAt, i, j - 1);
      assert pacing[j].Leased? && pacing[j - 1].Leased?;
      assert (j - i) * interval == (j - 1 - i) * interval + interval;
    }
  }

  // ------------------------------------------------------------------ when a cancellation takes effect

  datatype CancelEnd = CancelRefused | CancelTakesEffect | CancelDropped

  /** How `cancel` ends for the record it read and the one it finds when it swaps: a
      finished task is refused; a request whose swap is lost is dropped without a word,
      unless the task turns out to be cancelled already. */
  function CancelEndOf(read: Record<Task>, found: Record<Task>): CancelEnd {
    if read.value.status == Cancelled then CancelTakesEffect
    else if Terminal(read.value.status) then CancelRefused
    else if found.revision == read.revision || found.value.status == Cancelled then CancelTakesEffect
    else CancelDropped
  }

  /** One cancellation by worker `me` that reads after `before` and swaps after `between`. */
  function CancelRun(me: Pid, id: string, before: seq<TaskEvent>, between: seq<TaskEvent>, nowMs: int): Slot {
    var s := ExecuteTask(id, EMPTY, before);
    var s' := ExecuteTask(id, s, between);
    if s.task.Some? && s'.task.Some? && s.task.value.revision == s'.task.value.revision then
      PerformTask(id, s', TaskEvent(me, Write(CancelTask), nowMs))
    else s'
  }

  /** In every run, the task is cancelled once the request is through if and only if it
      was read cancelled, or it was read unfinished and at the swap stands at the revision
      read, or it is cancelled by then; it is dropped if and only if it was read
      unfinished and has moved on without being cancelled. */
  lemma CancelTakesEffectExactly(me: Pid, id: string, before: seq<TaskEvent>, between: seq<TaskEvent>, nowMs: int)
    requires ExecuteTask(id, EMPTY, before).task.Some?
    ensures var s := ExecuteTask(id, EMPTY, before);
            var s' := ExecuteTask(id, s, between);
            var done := CancelRun(me, id, before, between, nowMs);
            && s'.task.Some? && done.task.Some?
            && (done.task.value.value.status == Cancelled <==>
                  CancelEndOf(s.task.value, s'.task.value) == CancelTakesEffect)
            && (CancelEndOf(s.task.value, s'.task.value) == CancelDropped <==>
                  && !Terminal(s.task.value.value.status) && s'.task.value.revision > s.task.value.revision
                  && done.task.value.value.status != Cancelled)
  {
    hide ExecuteTask, SlotInv, PerformTask, Frozen;
    EmptySlotInv(id);
    TaskRunKeepsInv(id, EMPTY, before);
    TaskRunKeepsInv(id, ExecuteTask(id, EMPTY, before), between);
    var s' := ExecuteTask(id, ExecuteTask(id, EMPTY, before), between);
    CancelStep(me, id, s', nowMs);
  }

  lemma CancelStep(me: Pid, id: string, s: Slot, nowMs: int)
    requires s.task.Some?
    ensures var done := PerformTask(id, s, TaskEvent(me, Write(CancelTask), nowMs));
            && done.task.Some?
            && (done.task.value.value.status == Cancelled <==>
                  s.task.value.value.status == Cancelled || !Terminal(s.task.value.value.status))
  {
  }

  function CreationRun(id: string, t: Task, handle: string): seq<TaskEvent> {
    [TaskEvent(1, NewTask(t), 0)] + CreateCall(id) + [TaskEvent(1, Write(SaveHandle(handle)), 0)]
  }

  /** It does happen: a reader of the task that takes a poll lease between the read and the
      swap of a cancellation leaves the task working, and nothing is reported. */
  lemma PollLeaseDropsCancel(id: string, t: Task, handle: string)
    requires Initial(id, t)
    ensures var before, between := CreationRun(id, t, handle), [TaskEvent(3, Write(TakeLease), 0)];
            var s := ExecuteTask(id, EMPTY, before);
            var s' := ExecuteTask(id, s, between);
            && s.task.Some? && s.task.value.value.status == Working
            && s'.task.Some? && CancelEndOf(s.task.value, s'.task.value) == CancelDropped
            && CancelRun(2, id, before, between, 0).task.Some?
            && CancelRun(2, id, before, between, 0).task.value.value.status == Working
  {
    hide ExecuteTask;
    var s := ExecuteTask(id, EMPTY, CreationRun(id, t, handle));
    CreationEnds(id, t, handle);
    var lease := TaskEvent(3, Write(TakeLease), 0);
    OneEvent(id, s, lease);
    assert PerformTask(id, s, lease).task.value.revision == 3;
  }

  lemma OneEvent(id: string, s: Slot, e: TaskEvent)
    ensures ExecuteTask(id, s, [e]) == PerformTask(id, s, e)
  {
  }

  lemma {:induction false} ExecuteTaskConcat(id: string, s: Slot, a: seq<TaskEvent>, b: seq<TaskEvent>)
    ensures ExecuteTask(id, s, a + b) == ExecuteTask(id, ExecuteTask(id, s, a), b)
    decreases |a|
  {
    if a == [] {
      assert a + b == b;
    } else {
      assert (a + b)[1..] == a[1..] + b;
      ExecuteTaskConcat(id, PerformTask(id, s, a[0]), a[1..], b);
    }
  }

  lemma CreationEnds(id: string, t: Task, handle: string)
    requires Initial(id, t)
    ensures var s := ExecuteTask(id, EMPTY, CreationRun(id, t, handle));
            && s.task.Some? && s.task.value.revision == 2 && s.task.value.value.status == Working
            && s.task.value.value.nextPollAt == 0 && CancelFx(id) !in s.cells
  {
    hide ExecuteTask;
    var e := CreationRun(id, t, handle);
    var s0 := PerformTask(id, EMPTY, e[0]);
    assert s0.task == Some(Fresh(t, 0, Some(t.expiresAt))) && s0.maker == Some(1) && s0.cells == map[];
    var s4 := CreateCalled(id, s0);
    OneEvent(id, EMPTY, e[0]);
    OneEvent(id, s4, e[5]);
    assert e == [e[0]] + e[1..5] + [e[5]];
    ExecuteTaskConcat(id, EMPTY, [e[0]] + e[1..5], [e[5]]);
    ExecuteTaskConcat(id, EMPTY, [e[0]], e[1..5]);
    assert e[1..5] == CreateCall(id);
  }

  function CreateCall(id: string): seq<TaskEvent> {
    [TaskEvent(1, Journalled(CreateFx(id), Claim), 0), TaskEvent(1, Journalled(CreateFx(id), Arm), 0),
     TaskEvent(1, Journalled(CreateFx(id), Begin), 0), TaskEvent(1, Journalled(CreateFx(id), End(true)), 0)]
  }

  lemma CreateCalled(id: string, s: Slot) returns (s': Slot)
    requires s.task.Some? && s.maker == Some(1) && s.cells == map[]
    ensures s' == ExecuteTask(id, s, CreateCall(id))
    ensures s'.task == s.task && s'.cells.Keys == {CreateFx(id)} && s'.cells[CreateFx(id)].begun == 1
  {
    hide ExecuteTask;
    var e := CreateCall(id);
    var s1 := PerformTask(id, s, e[0]);
    var s2 := PerformTask(id, s1, e[1]);
    var s3 := PerformTask(id, s2, e[2]);
    s' := PerformTask(id, s3, e[3]);
    FourEvents(id, s, e[0], e[1], e[2], e[3]);
  }

  // ------------------------------------------------------------------ an acknowledgement that is lost

  /** The provider has acknowledged a cancellation of `p` and the journal does not say so. */
  predicate Unrecorded(p: Pid, id: string, s: Slot) {
    && s.task.Some? && CancelFx(id) in s.cells
    && var c := s.cells[CancelFx(id)];
    && c.holder == p && c.Status() == Inflight && c.acks > 0 && c.open == 0 && !c.armed
  }

  /** While the journal does not say so the task does not either, and if the worker that
      made the call takes no further step it never will, over any run of the others. */
  lemma UnrecordedStaysLost(p: Pid, id: string, before: seq<TaskEvent>, after: seq<TaskEvent>)
    requires Unrecorded(p, id, ExecuteTask(id, EMPTY, before)) && forall i | 0 <= i < |after| :: after[i].pid != p
    ensures var s, s' := ExecuteTask(id, EMPTY, before), ExecuteTask(id, ExecuteTask(id, EMPTY, before), after);
            && !s.task.value.value.upstreamCancelled
            && Unrecorded(p, id, s') && !s'.task.value.value.upstreamCancelled
  {
    hide ExecuteTask, SlotInv, SlotRely;
    EmptySlotInv(id);
    TaskRunKeepsInv(id, EMPTY, before);
    var s := ExecuteTask(id, EMPTY, before);
    TaskRunKeepsInv(id, s, after);
    OthersTaskRunIsRely(p, id, s, after);
    UnrecordedUnderRely(p, id, s, ExecuteTask(id, s, after));
    UnrecordedIsUnflagged(p, id, s);
    UnrecordedIsUnflagged(p, id, ExecuteTask(id, s, after));
  }

  lemma UnrecordedUnderRely(p: Pid, id: string, s: Slot, s': Slot)
    requires SlotInv(id, s) && SlotRely(p, s, s') && Unrecorded(p, id, s)
    ensures Unrecorded(p, id, s')
  {
    assert Fx.Rely(p, At(s.cells, CancelFx(id)), At(s'.cells, CancelFx(id)));
    assert Fx.Inv(CancelFx(id), s.cells[CancelFx(id)]);
  }

  lemma UnrecordedIsUnflagged(p: Pid, id: string, s: Slot)
    requires SlotInv(id, s) && Unrecorded(p, id, s)
    ensures !s.task.value.value.upstreamCancelled
  {
  }

  /** Worker 2 cancels and calls the provider, which acknowledges. */
  function AcknowledgedRun(id: string): seq<TaskEvent> {
    [TaskEvent(2, Write(CancelTask), 0), TaskEvent(2, Journalled(CancelFx(id), Claim), 0),
     TaskEvent(2, Journalled(CancelFx(id), Arm), 0), TaskEvent(2, Journalled(CancelFx(id), Begin), 0),
     TaskEvent(2, Journalled(CancelFx(id), End(true)), 0)]
  }

  /** It does happen: a run that ends where the journal write after the acknowledgement
      throws, with the task cancelled, the call acknowledged and the flag unset. */
  lemma AcknowledgementIsLost(id: string, t: Task, handle: string)
    requires Initial(id, t)
    ensures var s := ExecuteTask(id, EMPTY, CreationRun(id, t, handle) + AcknowledgedRun(id));
            && Unrecorded(2, id, s) && s.task.value.value.status == Cancelled && !s.task.value.value.upstreamCancelled
  {
    hide ExecuteTask, SlotInv;
    var s0 := ExecuteTask(id, EMPTY, CreationRun(id, t, handle));
    var e := AcknowledgedRun(id);
    CreationEnds(id, t, handle);
    var s1 := PerformTask(id, s0, e[0]);
    assert s1.task.value.value.status == Cancelled && s1.cells == s0.cells;
    var s5 := CancelCalled(id, s1);
    assert e == [e[0]] + e[1..];
    ExecuteTaskConcat(id, EMPTY, CreationRun(id, t, handle), e);
    ExecuteTaskConcat(id, s0, [e[0]], e[1..]);
    OneEvent(id, s0, e[0]);
    assert e[1..] == CancelCall(id);
    EmptySlotInv(id);
    TaskRunKeepsInv(id, EMPTY, CreationRun(id, t, handle) + e);
    UnrecordedIsUnflagged(2, id, s5);
  }

  function CancelCall(id: string): seq<TaskEvent> {
    [TaskEvent(2, Journalled(CancelFx(id), Claim), 0), TaskEvent(2, Journalled(CancelFx(id), Arm), 0),
     TaskEvent(2, Journalled(CancelFx(id), Begin), 0), TaskEvent(2, Journalled(CancelFx(id), End(true)), 0)]
  }

  lemma CancelCalled(id: string, s: Slot) returns (s': Slot)
    requires s.task.Some? && CancelFx(id) !in s.cells
    ensures s' == ExecuteTask(id, s, CancelCall(id)) && s'.task == s.task && Unrecorded(2, id, s')
  {
    hide ExecuteTask;
    var e := CancelCall(id);
    var s1 := PerformTask(id, s, e[0]);
    var s2 := PerformTask(id, s1, e[1]);
    var s3 := PerformTask(id, s2, e[2]);
    s' := PerformTask(id, s3, e[3]);
    FourEvents(id, s, e[0], e[1], e[2], e[3]);
  }

  lemma FourEvents(id: string, s: Slot, a: TaskEvent, b: TaskEvent, c: TaskEvent, d: TaskEvent)
    ensures ExecuteTask(id, s, [a, b, c, d]) ==
              PerformTask(id, PerformTask(id, PerformTask(id, PerformTask(id, s, a), b), c), d)
  {
    hide PerformTask;
    var s1 := PerformTask(id, s, a);
    var s2 := PerformTask(id, s1, b);
    var s3 := PerformTask(id, s2, c);
    OneEvent(id, s, a);
    OneEvent(id, s1, b);
    OneEvent(id, s2, c);
    OneEvent(id, s3, d);
    assert [a, b, c, d] == [a] + ([b] + ([c] + [d]));
    ExecuteTaskConcat(id, s, [a], [b] + ([c] + [d]));
    ExecuteTaskConcat(id, s1, [b], [c] + [d]);
    ExecuteTaskConcat(id, s2, [c], [d]);
  }
}
