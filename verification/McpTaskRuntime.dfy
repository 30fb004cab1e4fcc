/** `DurableMcpTaskRuntime` (src/core/durable-mcp-tasks.ts) run by one worker, `me`,
    among any number of others.

    Every store or provider call is one atomic step. `Interfere` stands before each of
    them: between two awaits the other workers may take any number of steps, of which
    `me` learns only `SlotRely`. A store write is possible only through `CasTask`,
    `CreateTask` and the journal steps, and each demands that the step is enabled in
    `McpTasks`; so what is proved there of every schedule holds of these methods,
    stopped at any point. */
module McpTaskRuntime {
  import opened DurableStore
  import Fx = Effects
  import opened Effects
  import opened McpTasks

  datatype Caller = Caller(ownerId: string, credentialBinding: string)

  datatype IdempotencyKey = IdempotencyKey(ownerId: string, credentialBinding: string, key: string)

  datatype IndexEntry = IndexEntry(taskId: string, fingerprint: string)

  /** Which journal writes of a provider cancellation throw. */
  datatype JournalFaults = JournalFaults(atArm: bool, atSettle: bool)

  const NO_FAULT := JournalFaults(false, false)

  datatype Detailed = Detailed(taskId: string, status: TaskStatus, result: Option<string>, error: Option<string>,
                               inputRequests: seq<Entry>)

  datatype Reply<+T> = Ok(value: T) | InvalidInput | Unavailable | UpstreamError | Aborted

  /** A task still being created is reported as working. */
  function ToDetailed(t: Task): Detailed {
    match t.status
    case Completed => Detailed(t.taskId, Completed, Some(if t.result.Some? then t.result.value else "{}"), None, [])
    case Failed =>
      Detailed(t.taskId, Failed, None,
               Some(if t.sanitizedError.Some? then t.sanitizedError.value else "Task execution failed"), [])
    case Cancelled => Detailed(t.taskId, Cancelled, None, None, [])
    case InputRequired => Detailed(t.taskId, InputRequired, None, None, t.inputRequests)
    case _ => Detailed(t.taskId, Working, None, None, [])
  }

  /** What a caller is shown of a provider's answer to a poll: nothing but the answer itself,
      without the requests already responded to. */
  function Shown(id: string, a: PollAnswer, used: seq<string>): Detailed {
    match a
    case PollThrew(error) => Detailed(id, Failed, None, Some(error), [])
    case Replied(Broke(error)) =>
      Detailed(id, Failed, None, Some(if error.Some? then error.value else "The provider task failed"), [])
    case Replied(Done(result, _)) =>
      Detailed(id, Completed, Some(if result.Some? then result.value else "{}"), None, [])
    case Replied(NeedsInput(requests)) =>
      Detailed(id, InputRequired, None, None, Select(requests, KeySet(requests) - Elements(used)))
    case Replied(StillWorking) => Detailed(id, Working, None, None, [])
  }

  lemma FiledIsShown(t: Task, a: PollAnswer, nowMs: int)
    ensures ToDetailed(AfterWrite(t, PersistOutcome(OutcomeOf(a)), nowMs)) == Shown(t.taskId, a, t.usedInputKeys)
  {
    hide Select, KeySet, Elements;
    if a.Replied? { ReplyIsShown(t, a.reply, nowMs); }
  }

  lemma ReplyIsShown(t: Task, o: PollOutcome, nowMs: int)
    ensures ToDetailed(AfterWrite(t, PersistOutcome(o), nowMs)) == Shown(t.taskId, Replied(o), t.usedInputKeys)
  {
    hide Select, KeySet, Elements;
    match o
    case StillWorking => assert AfterWrite(t, PersistOutcome(o), nowMs).status == Working;
    case NeedsInput(_) => assert AfterWrite(t, PersistOutcome(o), nowMs).status == InputRequired;
    case Done(_, _) => assert AfterWrite(t, PersistOutcome(o), nowMs).status == Completed;
    case Broke(_) => assert AfterWrite(t, PersistOutcome(o), nowMs).status == Failed;
  }

  /** What a caller is told of a task by its identifier alone. */
  function Told(s: Slot, id: string, caller: Caller, nowMs: int): Reply<Record<Task>> {
    if !ValidIdentity(id) || !SafeTime(nowMs) then InvalidInput
    else if s.task.None? || !OwnedBy(s.task.value.value, caller) || nowMs >= s.task.value.value.expiresAt
    then Unavailable
    else Ok(s.task.value)
  }

  /** The same error, whatever a normal answer would have held. */
  predicate SameError<T(==), U(==)>(a: Reply<T>, b: Reply<U>) {
    match a
    case Ok(_) => false
    case InvalidInput => b.InvalidInput?
    case Unavailable => b.Unavailable?
    case UpstreamError => b.UpstreamError?
    case Aborted => b.Aborted?
  }

  function InReply(r: Reply<Record<Task>>): Reply<Detailed> {
    match r
    case Ok(record) => Ok(ToDetailed(record.value))
    case InvalidInput => InvalidInput
    case Unavailable => Unavailable
    case UpstreamError => UpstreamError
    case Aborted => Aborted
  }

  /** How a read of a task went: it failed, was answered from the record read, found the
      creation unfinished, lost the lease to a later revision; or it polled under the lease,
      and was stopped, filed the answer on the lease, or found a later revision there. */
  datatype GetCourse =
    | NotRead
    | AsItStands(read: Record<Task>)
    | Unfinished(read: Record<Task>)
    | LeaseLost(read: Record<Task>, found: Record<Task>)
    | Stopped(lease: Record<Task>)
    | Filed(lease: Record<Task>)
    | Overtaken(lease: Record<Task>, found: Record<Task>)

  predicate PollDue(t: Task, nowMs: int) { t.status == Working && t.nextPollAt <= nowMs }

  predicate AnsweredUnder(s: Slot, lease: Record<Task>, answer: PollAnswer) {
    lease.value.status == Working && lease.revision in s.answers && s.answers[lease.revision] == answer
  }

  /** How a get ends in the state `s`; only what was polled is answered otherwise than the
      task stands there or stood when it was read. */
  predicate Went(c: GetCourse, s: Slot, id: string, caller: Caller, nowMs: int, answer: PollAnswer, aborted: bool,
                 r: Reply<Detailed>)
  {
    var told := InReply(Told(s, id, caller, nowMs));
    match c
    case NotRead => !r.Ok? && r == told
    case AsItStands(read) =>
      && (Terminal(read.value.status) || read.value.status == InputRequired || nowMs < read.value.nextPollAt)
      && r == Ok(ToDetailed(read.value))
    case Unfinished(read) =>
      && read.value.status == Creating && read.value.nextPollAt <= nowMs
      && s.task.Some? && read.revision < s.task.value.revision
      && (r == told || r == Ok(ToDetailed(s.task.value.value)))
    case LeaseLost(read, found) => PollDue(read.value, nowMs) && read.revision < found.revision && r == told
    case Stopped(lease) => AnsweredUnder(s, lease, answer) && answer.PollThrew? && aborted && r == Aborted
    case Filed(lease) =>
      && AnsweredUnder(s, lease, answer) && !(answer.PollThrew? && aborted)
      && r == Ok(Shown(lease.value.taskId, answer, lease.value.usedInputKeys))
    case Overtaken(lease, found) =>
      AnsweredUnder(s, lease, answer) && !(answer.PollThrew? && aborted) && lease.revision < found.revision && r == told
  }

  predicate ValidIdentity(s: string) { 0 < |s| <= 256 }

  predicate OwnedBy(t: Task, caller: Caller) {
    t.ownerId == caller.ownerId && t.credentialBinding == caller.credentialBinding
  }

  /** An idempotency record is written once. */
  ghost predicate KeepsIndex(a: map<IdempotencyKey, IndexEntry>, b: map<IdempotencyKey, IndexEntry>) {
    forall k | k in a :: k in b && b[k] == a[k]
  }

  predicate BoundTo(m: map<IdempotencyKey, IndexEntry>, caller: Caller, key: string, id: string) {
    var k := IdempotencyKey(caller.ownerId, caller.credentialBinding, key);
    k in m && m[k].taskId == id
  }

  function Look(slots: map<string, Slot>, id: string): Slot { if id in slots then slots[id] else EMPTY }

  /** A task started with an idempotency key is the task its key is bound to. */
  ghost predicate KeyInv(m: map<IdempotencyKey, IndexEntry>, slots: map<string, Slot>) {
    forall id | id in slots && slots[id].task.Some? && slots[id].task.value.value.idempotencyKey.Some? ::
      var t := slots[id].task.value.value;
      BoundTo(m, Caller(t.ownerId, t.credentialBinding), t.idempotencyKey.value, id)
  }

  predicate MayCreate(m: map<IdempotencyKey, IndexEntry>, id: string, a: Action) {
    a.NewTask? && a.initial.idempotencyKey.Some? ==>
      BoundTo(m, Caller(a.initial.ownerId, a.initial.credentialBinding), a.initial.idempotencyKey.value, id)
  }

  lemma WriteKeepsIdentity(t: Task, w: TaskWrite, nowMs: int)
    ensures var u := AfterWrite(t, w, nowMs);
            u.ownerId == t.ownerId && u.credentialBinding == t.credentialBinding && u.idempotencyKey == t.idempotencyKey
  {
    hide Select, KeySet, KeyList, Elements;
    match w
    case PersistOutcome(o) => match o { case _ => }
    case _ =>
  }

  lemma StepKeepsKeyInv(m: map<IdempotencyKey, IndexEntry>, slots: map<string, Slot>, p: Pid, id: string, a: Action,
          nowMs: int)
    requires KeyInv(m, slots) && McpTasks.Enabled(p, id, Look(slots, id), a, nowMs) && MayCreate(m, id, a)
    ensures KeyInv(m, slots[id := McpTasks.Next(p, id, Look(slots, id), a, nowMs)])
  {
    if a.Write? { WriteKeepsIdentity(Look(slots, id).task.value.value, a.change, nowMs); }
    hide AfterWrite, CanWrite, Answers, Fx.Enabled, Fx.Next;
    var s' := McpTasks.Next(p, id, Look(slots, id), a, nowMs);
    assert a.NewTask? ==> s'.task.value.value == a.initial;
    assert !a.NewTask? && !a.Write? ==> s'.task == Look(slots, id).task;
  }

  lemma IndexGrows(m: map<IdempotencyKey, IndexEntry>, k: IdempotencyKey, entry: IndexEntry, slots: map<string, Slot>)
    requires KeyInv(m, slots) && k !in m
    ensures KeyInv(m[k := entry], slots)
  {
  }

  // ------------------------------------------------------------------ all tasks together

  datatype World = World(index: map<IdempotencyKey, IndexEntry>, slots: map<string, Slot>)

  datatype WorldEvent = Bind(key: IdempotencyKey, entry: IndexEntry) | OnTask(id: string, event: TaskEvent)

  function PerformWorld(w: World, e: WorldEvent): World {
    match e
    case Bind(k, entry) => if k in w.index then w else w.(index := w.index[k := entry])
    case OnTask(id, ev) =>
      if McpTasks.Enabled(ev.pid, id, Look(w.slots, id), ev.action, ev.nowMs) && MayCreate(w.index, id, ev.action)
      then w.(slots := w.slots[id := McpTasks.Next(ev.pid, id, Look(w.slots, id), ev.action, ev.nowMs)])
      else w
  }

  function ExecuteWorld(w: World, schedule: seq<WorldEvent>): World
    decreases |schedule|
  {
    if schedule == [] then w else ExecuteWorld(PerformWorld(w, schedule[0]), schedule[1..])
  }

  ghost predicate WorldInv(w: World) {
    KeyInv(w.index, w.slots) && forall id | id in w.slots :: SlotInv(id, w.slots[id])
  }

  lemma {:induction false} WorldRunKeepsInv(w: World, schedule: seq<WorldEvent>)
    requires WorldInv(w)
    ensures WorldInv(ExecuteWorld(w, schedule)) && KeepsIndex(w.index, ExecuteWorld(w, schedule).index)
    decreases |schedule|
  {
    hide SlotInv;
    if schedule != [] {
      match schedule[0] {
        case Bind(_, _) =>
        case OnTask(id, ev) =>
          EmptySlotInv(id);
          if McpTasks.Enabled(ev.pid, id, Look(w.slots, id), ev.action, ev.nowMs) && MayCreate(w.index, id, ev.action) {
            StepKeepsSlotInv(ev.pid, id, Look(w.slots, id), ev.action, ev.nowMs);
            StepKeepsKeyInv(w.index, w.slots, ev.pid, id, ev.action, ev.nowMs);
          }
      }
      WorldRunKeepsInv(PerformWorld(w, schedule[0]), schedule[1..]);
    }
  }

  /** However often, by however many workers and after however many crashes a start is
      repeated under one idempotency key: there is one task for the key, and the provider
      is asked to create it at most once. */
  lemma OneCreatePerIdempotencyKey(schedule: seq<WorldEvent>, id1: string, id2: string)
    requires var w := ExecuteWorld(World(map[], map[]), schedule);
             && Look(w.slots, id1).task.Some? && Look(w.slots, id2).task.Some?
             && var t, u := Look(w.slots, id1).task.value.value, Look(w.slots, id2).task.value.value;
             && t.idempotencyKey.Some? && t.idempotencyKey == u.idempotencyKey
             && t.ownerId == u.ownerId && t.credentialBinding == u.credentialBinding
    ensures id1 == id2
    ensures var s := Look(ExecuteWorld(World(map[], map[]), schedule).slots, id1);
            CreateFx(id1) in s.cells ==> s.cells[CreateFx(id1)].begun <= 1
  {
    WorldRunKeepsInv(World(map[], map[]), schedule);
    var w := ExecuteWorld(World(map[], map[]), schedule);
    assert SlotInv(id1, w.slots[id1]);
    if CreateFx(id1) in w.slots[id1].cells { CellInvAt(id1, w.slots[id1], CreateFx(id1)); }
  }

  /** `r` was the task's record at some earlier moment. */
  predicate Seen(s: Slot, r: Record<Task>) { s.task.Some? && TaskGrows(r, s.task.value) }

  /** The record is there, and whoever claimed its creation is the worker that made it. */
  predicate MadeBy(s: Slot, fx: EffectId) { s.maker.Some? && (fx in s.cells ==> s.cells[fx].holder == s.maker.value) }

  /** In every run the reply about a task is what the provider said: no result, error or
      request but of an answer to a poll, less the requests responded to, and the doubt about
      a creation. */
  lemma RepliesTellTheAnswers(id: string, schedule: seq<TaskEvent>)
    requires ExecuteTask(id, EMPTY, schedule).task.Some?
    ensures var s := ExecuteTask(id, EMPTY, schedule); var t := s.task.value.value; var d := ToDetailed(t);
            && d.taskId == id && d.status == (if t.status == Creating then Working else t.status)
            && (d.result.Some? <==> d.status == Completed) && (d.error.Some? <==> d.status == Failed)
            && (d.inputRequests != [] ==> d.status == InputRequired)
            && (d.status == Completed ==>
                  exists r :: r in s.answers && SaysDone(s.answers[r], t) && d.result == t.result)
            && (d.status == Failed ==>
                  || d.error == Some(CREATE_UNCERTAIN)
                  || exists r :: r in s.answers && SaysFailed(s.answers[r], t) && d.error == t.sanitizedError)
            && (d.status == InputRequired ==>
                  exists r :: r in s.answers && SaysAsk(s.answers[r], t) && d.inputRequests == t.inputRequests)
  {
    hide ExecuteTask, SaysAsk;
    EmptySlotInv(id);
    TaskRunKeepsInv(id, EMPTY, schedule);
    OutcomesAreAnswers(id, schedule);
  }

  /** How an update went: the task was not read, does not wait for input, has no use for the
      responses, or cannot be sent any; they were not delivered by this worker, or found
      `standing` with another's delivery of something else; or they were delivered. */
  datatype UpdateCourse =
    | Unread
    | NotAsked
    | NoneWanted
    | NoWayToSend
    | NotDelivered(standing: Option<Cell>)
    | Delivered

  predicate UpdatedAs(c: UpdateCourse, seen: Record<Task>, s: Slot, id: string, caller: Caller, nowMs: int,
                      accepted: seq<Entry>, able: bool, delivered: bool, r: Reply<seq<Entry>>)
  {
    match c
    case Unread => SameError(r, Told(s, id, caller, nowMs))
    case NotAsked => seen.value.status != InputRequired && r == InvalidInput
    case NoneWanted => seen.value.status == InputRequired && accepted == [] && r == Ok([])
    case NoWayToSend => seen.value.status == InputRequired && accepted != [] && !able && r == InvalidInput
    case NotDelivered(standing) =>
      && seen.value.status == InputRequired && accepted != [] && able && r == UpstreamError
      && (standing.None? ==> !delivered) && (standing.Some? ==> !Answered(standing.value, accepted))
    case Delivered =>
      && seen.value.status == InputRequired && accepted != [] && able
      && (r == Ok(accepted) || ((r == InvalidInput || r == Unavailable) && LeftBehind(s, seen)))
  }

  /** The journal holds the receipt for the delivery of these very entries. */
  predicate Answered(c: Cell, accepted: seq<Entry>) {
    c.Status() == Succeeded && c.Effect().receipt == Some(ResponseTo(accepted))
  }

  /** The task has moved on from the record seen. */
  predicate LeftBehind(s: Slot, seen: Record<Task>) { s.task.Some? && s.task.value.revision > seen.revision }

  /** How often the call behind an effect has begun. */
  function CallsBegun(s: Slot, fx: EffectId): nat { if fx in s.cells then s.cells[fx].begun else 0 }

  lemma CallsStay(me: Pid, s: Slot, s': Slot, fx: EffectId)
    requires SlotRely(me, s, s')
    ensures CallsBegun(s, fx) <= CallsBegun(s', fx)
  {
    assert Fx.Rely(me, At(s.cells, fx), At(s'.cells, fx));
  }

  /** Where the right to ask the provider was: not needed for the record seen, won by this
      worker, or standing with the entry found. */
  datatype Asking = NotNeeded(seen: Record<Task>) | Won | Standing(found: Cell)

  /** The provider is asked to cancel, unless there is nothing or no way to ask, the write
      before the call throws, or the entry found is not a cancellation that may be asked for
      again; one that may was then retried by another worker. */
  predicate AskedUpstream(a: Asking, s0: Slot, s1: Slot, fx: EffectId, able: bool, fault: bool) {
    match a
    case NotNeeded(seen) =>
      && seen.value.status == Cancelled
      && (seen.value.upstreamCancelled || !able || seen.value.providerTaskId.None?)
    case Won => fault || CallsBegun(s1, fx) > CallsBegun(s0, fx)
    case Standing(found) =>
      || found.Status() != Uncertain
      || (fx in s1.cells && s1.cells[fx].record.revision > found.record.revision)
  }

  /** A cancelled task shows that polling has ended and that the provider is to be asked. */
  predicate MarkedCancelled(t: Task) {
    t.status == Cancelled && t.groundlanePollingCancelled && t.upstreamCancelRequested
  }

  lemma CancelledIsMarked(id: string, s: Slot)
    requires SlotInv(id, s) && s.task.Some?
    ensures s.task.value.value.status == Cancelled ==> MarkedCancelled(s.task.value.value)
  {
  }

  /** The journal holds the provider's acknowledgement. */
  predicate AcknowledgedUpstream(id: string, s: Slot) { CancelFx(id) in s.cells && Settled(s.cells[CancelFx(id)]) }

  /** Marking fails on a read of the task, or because every swap was lost although the
      acknowledgement is on the journal. */
  predicate MarkingFailed<T(==)>(r: Reply<T>, s: Slot, id: string, caller: Caller, nowMs: int) {
    SameError(r, Told(s, id, caller, nowMs)) || (r.UpstreamError? && AcknowledgedUpstream(id, s))
  }

  lemma NothingToAsk(t: Record<Task>, s0: Slot, s1: Slot, fx: EffectId, able: bool, fault: bool)
    requires t.value.status == Cancelled && (t.value.upstreamCancelled || !able || t.value.providerTaskId.None?)
    ensures AskedUpstream(NotNeeded(t), s0, s1, fx, able, fault)
  {
  }

  lemma AskedSince(a: Asking, s0: Slot, s1: Slot, s2: Slot, fx: EffectId, able: bool, fault: bool)
    requires AskedUpstream(a, s1, s2, fx, able, fault) && CallsBegun(s0, fx) <= CallsBegun(s1, fx)
    ensures AskedUpstream(a, s0, s2, fx, able, fault)
  {
  }

  /** Past its creation a task has the provider's handle. */
  lemma HandleThere(id: string, s: Slot, r: Record<Task>)
    requires SlotInv(id, s) && s.task == Some(r)
    ensures r.value.status == Working || r.value.status == InputRequired ==> r.value.providerTaskId.Some?
  {
  }

  /** The creation is this worker's to settle, and it has not put it on record as succeeded. */
  predicate CreationOpen(me: Pid, id: string, s: Slot) {
    CreateFx(id) in s.cells && Unsettled(me, CreateFx(id), s.cells[CreateFx(id)])
  }

  lemma CreationStaysOpen(me: Pid, id: string, s: Slot, s': Slot)
    requires CreationOpen(me, id, s) && SlotRely(me, s, s')
    ensures CreationOpen(me, id, s')
  {
    assert Fx.Rely(me, At(s.cells, CreateFx(id)), At(s'.cells, CreateFx(id)));
  }

  /** Without a record there is no journal either. */
  lemma NothingYet(id: string, s: Slot)
    requires SlotInv(id, s) && s.task.None?
    ensures s.cells == map[]
  {
  }

  lemma RelyGrows(me: Pid, s: Slot, s': Slot)
    requires SlotRely(me, s, s')
    ensures Grows(s, s')
  {
  }

  lemma ReadLater(me: Pid, s: Slot, s': Slot)
    requires SlotRely(me, s, s')
    ensures s.task.Some? ==> s'.task.Some? && TaskGrows(s.task.value, s'.task.value)
  {
  }

  lemma MineStays(me: Pid, s: Slot, s': Slot, fx: EffectId)
    requires SlotRely(me, s, s') && fx in s.cells && Mine(me, fx, s.cells[fx])
    ensures Grows(s, s') && fx in s'.cells && s'.cells[fx] == s.cells[fx]
  {
  }

  lemma MakerStays(s: Slot, s': Slot)
    requires Grows(s, s') && s.task.Some?
    ensures s'.maker == s.maker
  {
  }

  /** Nobody claims in my name. */
  lemma CellRely(me: Pid, s: Slot, s': Slot, fx: EffectId)
    requires SlotRely(me, s, s')
    ensures fx !in s.cells && fx in s'.cells ==> s'.cells[fx].holder != me
    ensures s.task.Some? ==> s'.maker == s.maker
  {
    assert Fx.Rely(me, At(s.cells, fx), At(s'.cells, fx));
  }

  lemma OnlyMakerClaims(id: string, s: Slot)
    requires SlotInv(id, s) && s.task.Some?
    ensures MadeBy(s, CreateFx(id))
  {
  }

  lemma SeenStays(me: Pid, s: Slot, s': Slot, r: Record<Task>)
    requires Seen(s, r) && SlotRely(me, s, s')
    ensures Seen(s', r)
  {
    assert r.value.usedInputKeys <= s.task.value.value.usedInputKeys <= s'.task.value.value.usedInputKeys;
  }

  lemma SeenEarlier(s: Slot, a: Record<Task>, b: Record<Task>)
    requires TaskGrows(a, b) && Seen(s, b)
    ensures Seen(s, a)
  {
    assert a.value.usedInputKeys <= b.value.usedInputKeys <= s.task.value.value.usedInputKeys;
  }

  lemma SeenGrows(s: Slot, s': Slot, r: Record<Task>)
    requires Seen(s, r) && Grows(s, s')
    ensures Seen(s', r)
  {
    assert r.value.usedInputKeys <= s.task.value.value.usedInputKeys <= s'.task.value.value.usedInputKeys;
  }

  lemma EpochIsPast(id: string, s: Slot)
    requires SlotInv(id, s) && s.task.Some? && s.task.value.value.status == InputRequired
    ensures EpochOf(s.task.value.value) in s.past
  {
  }

  lemma SettledWasDelivered(id: string, s: Slot, fx: EffectId, accepted: seq<Entry>)
    requires SlotInv(id, s) && fx in s.cells && fx.kind == ProviderTaskUpdate
    requires s.cells[fx].Status() == Succeeded && s.cells[fx].Effect().receipt == Some(ResponseTo(accepted))
    ensures Delivery(fx.operationKey, accepted) in s.deliveries
  {
    assert Fx.Inv(fx, s.cells[fx]) && Settled(s.cells[fx]);
  }

  lemma SucceededIsSettled(id: string, s: Slot)
    requires SlotInv(id, s) && CancelFx(id) in s.cells && s.cells[CancelFx(id)].Status() == Succeeded
    ensures Settled(s.cells[CancelFx(id)])
  {
  }

  lemma AcceptedAreUsed(used: seq<string>, accepted: seq<Entry>)
    ensures KeySet(accepted) <= Elements(used + KeyList(accepted))
  {
    forall k | k in KeySet(accepted) ensures k in Elements(used + KeyList(accepted)) {
      var e :| e in accepted && e.key == k;
      var i :| 0 <= i < |accepted| && accepted[i] == e;
      assert (used + KeyList(accepted))[|used| + i] == k;
    }
  }

  /** The record the provider's handle makes of the one created. */
  function Handled(created: Record<Task>, handle: string, nowMs: int): Record<Task> {
    Bump(created, AfterWrite(created.value, SaveHandle(handle), nowMs), nowMs, Some(created.value.expiresAt))
  }

  /** How a start went: it was refused, reported on the record that was there, or made the
      record; `foundThen` is then the record where the handle was to be written. */
  datatype StartCourse =
    | Refused
    | FoundThere(found: Record<Task>)
    | Made(created: Record<Task>, foundThen: Record<Task>)

  predicate ValidStart(caller: Caller, ttlMs: int, key: Option<string>, nowMs: int) {
    && ValidIdentity(caller.ownerId) && ValidIdentity(caller.credentialBinding) && 60_000 <= ttlMs <= 86_400_000
    && (key.Some? ==> ValidIdentity(key.value)) && SafeTime(nowMs)
  }

  /** The key stands for another input. */
  predicate KeyTaken(m: map<IdempotencyKey, IndexEntry>, caller: Caller, key: Option<string>, input: string) {
    && key.Some? && var k := IdempotencyKey(caller.ownerId, caller.credentialBinding, key.value);
    k in m && m[k].fingerprint != input
  }

  /** A start that comes upon a record reports it if it is the caller's and for the same key
      and input; one still being created is failed first. */
  predicate AsFound(found: Record<Task>, s: Slot, id: string, caller: Caller, input: string, key: Option<string>,
                    nowMs: int, r: Reply<Detailed>)
  {
    && Seen(s, found)
    && if !OwnedBy(found.value, caller) then r == Unavailable
       else if found.value.idempotencyKey != key || found.value.operationInput != input then r == InvalidInput
       else if found.value.status != Creating then r == Ok(ToDetailed(found.value))
       else found.revision < s.task.value.revision && AsItIs(s, id, caller, nowMs, r)
  }

  predicate AsItIs(s: Slot, id: string, caller: Caller, nowMs: int, r: Reply<Detailed>) {
    s.task.Some? && (r == InReply(Told(s, id, caller, nowMs)) || r == Ok(ToDetailed(s.task.value.value)))
  }

  /** A creation that was answered, and not overtaken before its handle was written, has the
      handle on record, and unless its receipt was lost is reported so; any other is failed
      or reported as it stands. */
  predicate CreatedAs(created: Record<Task>, found: Record<Task>, s: Slot, id: string, caller: Caller, nowMs: int,
                      answer: Option<string>, fault: bool, r: Reply<Detailed>)
  {
    && (found == created || found.revision > created.revision)
    && (answer.Some? && found == created ==> Seen(s, Handled(created, answer.value, nowMs)))
    && if answer.Some? && found == created && !fault
       then r == Ok(ToDetailed(Handled(created, answer.value, nowMs).value))
       else AsItIs(s, id, caller, nowMs, r)
  }

  /** The provider's handle stands on the record written from the one created, and the
      creation is settled on the journal. */
  predicate HandleThenReceipt(s: Slot, fx: EffectId, answer: Option<string>, reported: Record<Task>, created: nat) {
    && answer.Some? && reported.value.providerTaskId == answer && reported.revision == created + 1
    && reported.value.status == Working
    && fx in s.cells && Settled(s.cells[fx])
  }

  lemma SeenRefl(s: Slot)
    requires s.task.Some?
    ensures Seen(s, s.task.value)
  {
  }

  /** Calls of which nobody but the worker that made them says how they ended. */
  predicate MineAlone(fx: EffectId) {
    fx.kind == ProviderTaskCreate || fx.kind == ProviderTaskUpdate || fx.kind == ProviderTaskCancel
  }

  /** `me` has made the call of effect `fx` and has yet to record how it ended; only a
      worker that found durable proof of the call can have settled it meanwhile. */
  predicate MyCall(me: Pid, s: Slot, fx: EffectId, inflight: nat) {
    && s.task.Some? && fx in s.cells
    && var c := s.cells[fx];
    && c.begun > 0 && c.record.revision >= inflight && c.Effect().id == fx
    && (MineAlone(fx) ==> c.record.revision == inflight)
    && (fx.kind == ProviderTaskCreate ==> Unsettled(me, fx, c))
    && (c.record.revision == inflight ==> c.holder == me && c.open == 0 && !c.armed && c.Status() == Inflight)
  }

  /** `me` is inside the call of effect `fx`. */
  predicate InCall(me: Pid, s: Slot, fx: EffectId, inflight: nat) {
    && s.task.Some? && fx in s.cells
    && var c := s.cells[fx];
    && c.holder == me && c.open > 0 && c.begun > 0 && !c.armed && c.record.revision >= inflight && c.Effect().id == fx
    && (MineAlone(fx) ==> c.record.revision == inflight)
    && (fx.kind == ProviderTaskCreate ==> Unsettled(me, fx, c))
    && (c.record.revision == inflight ==> c.Status() == Inflight)
  }

  lemma MyCallStays(me: Pid, s: Slot, s': Slot, fx: EffectId, inflight: nat)
    requires MyCall(me, s, fx, inflight) && SlotRely(me, s, s')
    ensures MyCall(me, s', fx, inflight)
  {
    assert Fx.Rely(me, At(s.cells, fx), At(s'.cells, fx));
  }

  lemma ClaimStays(me: Pid, s: Slot, s': Slot, fx: EffectId)
    requires SlotRely(me, s, s') && fx in s.cells && s.cells[fx].holder == me && s.cells[fx].Status() == Claimed
    ensures fx in s'.cells && s'.cells[fx] == s.cells[fx]
  {
    assert Fx.Rely(me, At(s.cells, fx), At(s'.cells, fx));
  }

  lemma ClaimedIsUnflagged(id: string, s: Slot)
    requires SlotInv(id, s) && s.task.Some? && CancelFx(id) in s.cells && s.cells[CancelFx(id)].Status() == Claimed
    ensures !s.task.value.value.upstreamCancelled
  {
  }

  lemma AcksStay(me: Pid, s: Slot, s': Slot, fx: EffectId)
    requires SlotRely(me, s, s') && fx in s.cells
    ensures fx in s'.cells && s.cells[fx].acks <= s'.cells[fx].acks
  {
    assert Fx.Rely(me, At(s.cells, fx), At(s'.cells, fx));
  }

  lemma CellInvAt(id: string, s: Slot, fx: EffectId)
    requires SlotInv(id, s) && fx in s.cells
    ensures Fx.Inv(fx, s.cells[fx]) && fx.jobId == id
  {
  }

  class DurableMcpTaskRuntime {
    var index: map<IdempotencyKey, IndexEntry>
    var slots: map<string, Slot>
    const providerId: string
    const pollIntervalMs: int
    const providerUpdates: bool  // the provider implements update
    const providerCancels: bool  // the provider implements cancel

    ghost predicate Valid() reads this {
      && pollIntervalMs > 0 && KeyInv(index, slots)
      && forall id | id in slots :: SlotInv(id, slots[id])
    }

    /** The interval must lie in 5000..60000. */
    constructor(providerId: string, pollIntervalMs: int, providerUpdates: bool, providerCancels: bool)
      requires 5000 <= pollIntervalMs <= 60000
      ensures Valid() && index == map[] && slots == map[]
    {
      this.providerId := providerId;
      this.pollIntervalMs := pollIntervalMs;
      this.providerUpdates := providerUpdates;
      this.providerCancels := providerCancels;
      index := map[];
      slots := map[];
    }

    // ---------------------------------------------------------------- atomic steps

    method Interfere(me: Pid, id: string)
      requires Valid()
      modifies this
      ensures Valid() && SlotInv(id, Look(slots, id))
      ensures SlotRely(me, Look(old(slots), id), Look(slots, id))
      ensures KeepsIndex(old(index), index)
    {
      hide SlotInv, SlotRely, KeyInv;
      EmptySlotInv(id);
      SlotRelyRefl(me, Look(slots, id));
    }

    method Step(me: Pid, id: string, a: Action, nowMs: int)
      requires Valid() && McpTasks.Enabled(me, id, Look(slots, id), a, nowMs) && MayCreate(index, id, a)
      modifies this
      ensures Valid() && index == old(index)
      ensures slots == old(slots)[id := McpTasks.Next(me, id, Look(old(slots), id), a, nowMs)]
      ensures SlotInv(id, Look(slots, id)) && Grows(Look(old(slots), id), Look(slots, id))
    {
      hide SlotInv, KeyInv;
      EmptySlotInv(id);
      StepKeepsSlotInv(me, id, Look(slots, id), a, nowMs);
      StepKeepsKeyInv(index, slots, me, id, a, nowMs);
      slots := slots[id := McpTasks.Next(me, id, Look(slots, id), a, nowMs)];
    }

    /** compareAndSwap on the task record; `w` names the write `next` is. */
    method CasTask(me: Pid, id: string, expected: nat, next: Task, nowMs: int, w: TaskWrite)
      returns (r: CasResult<Task>)
      requires Valid() && SlotInv(id, Look(slots, id))
      requires var s := Look(slots, id); s.task.Some? && s.task.value.revision == expected ==>
                 CanWrite(me, id, s, w, nowMs) && next == AfterWrite(s.task.value.value, w, nowMs)
      modifies this
      ensures Valid() && index == old(index)
      ensures var s, s' := Look(old(slots), id), Look(slots, id);
              && SlotInv(id, s') && Grows(s, s')
              && (r.Missing? ==> s.task.None? && s' == s)
              && (r.Conflict? ==> s.task == Some(r.record) && r.record.revision != expected && s' == s)
              && (r.Updated? ==> s.task.Some? && s.task.value.revision == expected
                                 && McpTasks.Enabled(me, id, s, Write(w), nowMs)
                                 && s' == McpTasks.Next(me, id, s, Write(w), nowMs) && s'.task == Some(r.record))
    {
      hide SlotInv, KeyInv;
      var s := Look(slots, id);
      if s.task.None? { return Missing; }
      if s.task.value.revision != expected { return Conflict(s.task.value); }
      StepKeepsSlotInv(me, id, s, Write(w), nowMs);
      StepKeepsKeyInv(index, slots, me, id, Write(w), nowMs);
      var record := Bump(s.task.value, next, nowMs, Some(next.expiresAt));
      slots := slots[id := McpTasks.Next(me, id, s, Write(w), nowMs).(task := Some(record))];
      r := Updated(record);
    }

    method ClaimEffect(me: Pid, id: string, fx: EffectId, nowMs: int) returns (r: ClaimResult)
      requires Valid() && SlotInv(id, Look(slots, id)) && Look(slots, id).task.Some? && fx.jobId == id
      requires fx.kind == ProviderTaskCreate ==> Look(slots, id).maker == Some(me)
      modifies this
      ensures Valid() && index == old(index) && SlotInv(id, Look(slots, id))
      ensures var s, s' := Look(old(slots), id), Look(slots, id);
              && fx in s'.cells && r.effect == s'.cells[fx].Effect() && r.revision == s'.cells[fx].record.revision
              && (r.ClaimGranted? ==> fx !in s.cells && McpTasks.Enabled(me, id, s, Journalled(fx, Claim), nowMs)
                                      && s' == McpTasks.Next(me, id, s, Journalled(fx, Claim), nowMs))
              && (r.ClaimExisting? ==> s' == s)
    {
      hide SlotInv, KeyInv;
      var s := Look(slots, id);
      if fx in s.cells { return ClaimExisting(s.cells[fx].Effect(), s.cells[fx].record.revision); }
      Step(me, id, Journalled(fx, Claim), nowMs);
      r := ClaimGranted(Look(slots, id).cells[fx].Effect(), 1);
    }

    /** `effects.transition`, as the one atomic step it amounts to (`Effects.DurableEffectJournal.Transition`). */
    method TransitionEffect(me: Pid, id: string, fx: EffectId, expected: nat, act: CellAction, nowMs: int)
      returns (written: bool)
      requires Valid() && SlotInv(id, Look(slots, id)) && fx in Look(slots, id).cells
      requires act.Arm? || act.Settle?
      requires Look(slots, id).cells[fx].record.revision == expected ==>
                 McpTasks.Enabled(me, id, Look(slots, id), Journalled(fx, act), nowMs)
      modifies this
      ensures Valid() && index == old(index) && SlotInv(id, Look(slots, id))
      ensures var s, s' := Look(old(slots), id), Look(slots, id);
              && (!written ==> s' == s && s.cells[fx].record.revision != expected)
              && (written ==> s.cells[fx].record.revision == expected
                              && McpTasks.Enabled(me, id, s, Journalled(fx, act), nowMs)
                              && s' == McpTasks.Next(me, id, s, Journalled(fx, act), nowMs))
    {
      hide SlotInv, KeyInv;
      if Look(slots, id).cells[fx].record.revision != expected { return false; }
      Step(me, id, Journalled(fx, act), nowMs);
      written := true;
    }

    /** A provider call under an armed effect begins. */
    method BeginCall(me: Pid, id: string, fx: EffectId, nowMs: int)
      requires Valid() && fx.jobId == id && fx.kind != ProviderTaskUpdate
      requires Look(slots, id).task.Some? && fx in Look(slots, id).cells
      requires Look(slots, id).cells[fx].holder == me && Look(slots, id).cells[fx].armed
      modifies this
      ensures Valid() && SlotInv(id, Look(slots, id)) && KeepsIndex(old(index), index)
      ensures Grows(Look(old(slots), id), Look(slots, id))
      ensures InCall(me, Look(slots, id), fx, Look(old(slots), id).cells[fx].record.revision)
      ensures CallsBegun(Look(slots, id), fx) > CallsBegun(Look(old(slots), id), fx)
    {
      hide SlotInv, KeyInv;
      ghost var c := Look(slots, id).cells[fx];
      ghost var s0 := Look(slots, id);
      Interfere(me, id);
      ghost var s1 := Look(slots, id);
      assert Fx.Rely(me, At(s0.cells, fx), At(s1.cells, fx));
      assert At(s1.cells, fx) == Some(c);
      CellInvAt(id, s1, fx);
      Step(me, id, Journalled(fx, Begin), nowMs);
      GrowsTransitive(s0, s1, Look(slots, id));
    }

    /** It returns with whatever the provider answered. */
    method EndCall(me: Pid, id: string, fx: EffectId, inflight: nat, acked: bool, nowMs: int)
      requires Valid() && fx.jobId == id && InCall(me, Look(slots, id), fx, inflight)
      modifies this
      ensures Valid() && SlotInv(id, Look(slots, id)) && KeepsIndex(old(index), index)
      ensures Grows(Look(old(slots), id), Look(slots, id))
      ensures MyCall(me, Look(slots, id), fx, inflight) && (acked ==> Look(slots, id).cells[fx].acks > 0)
      ensures CallsBegun(Look(slots, id), fx) >= CallsBegun(Look(old(slots), id), fx)
    {
      hide SlotInv, KeyInv;
      ghost var s0 := Look(slots, id);
      Interfere(me, id);
      ghost var s1 := Look(slots, id);
      assert Fx.Rely(me, At(s0.cells, fx), At(s1.cells, fx));
      CellInvAt(id, s1, fx);
      Step(me, id, Journalled(fx, End(acked)), nowMs);
      GrowsTransitive(s0, s1, Look(slots, id));
    }

    // ---------------------------------------------------------------- reading

    method Read(me: Pid, id: string, caller: Caller, nowMs: int) returns (r: Reply<Record<Task>>)
      requires Valid()
      modifies this
      ensures Valid() && SlotInv(id, Look(slots, id))
      ensures SlotRely(me, Look(old(slots), id), Look(slots, id))
      ensures KeepsIndex(old(index), index)
      ensures r == Told(Look(slots, id), id, caller, nowMs)
    {
      hide SlotInv, KeyInv;
      if !ValidIdentity(id) || !SafeTime(nowMs) {
        Interfere(me, id);
        return InvalidInput;
      }
      Interfere(me, id);
      var s := Look(slots, id);
      if s.task.None? { return Unavailable; }
      if !OwnedBy(s.task.value.value, caller) { return Unavailable; }
      if nowMs >= s.task.value.value.expiresAt { return Unavailable; }
      r := Ok(s.task.value);
    }

    // ---------------------------------------------------------------- failing closed

    method FailTaskUncertain(me: Pid, id: string, current: Record<Task>, caller: Caller, nowMs: int)
      returns (r: Reply<Detailed>)
      requires Valid() && SlotInv(id, Look(slots, id)) && Seen(Look(slots, id), current)
      requires || current.value.status == Creating
               || (current.value.status == Working && CreationOpen(me, id, Look(slots, id)))
      modifies this
      ensures Valid() && SlotInv(id, Look(slots, id)) && Seen(Look(slots, id), current)
      ensures Grows(Look(old(slots), id), Look(slots, id)) && KeepsIndex(old(index), index)
      ensures r.Ok? ==> Look(slots, id).task.Some? && r.value == ToDetailed(Look(slots, id).task.value.value)
      ensures !r.Ok? ==> r == InReply(Told(Look(slots, id), id, caller, nowMs))
      ensures Look(slots, id).task.value.revision > current.revision
      ensures CallsBegun(Look(old(slots), id), CreateFx(id)) <= CallsBegun(Look(slots, id), CreateFx(id))
    {
      hide SlotInv, KeyInv, Fx.Rely, CallsBegun, SlotRely;
      ghost var s0 := Look(slots, id);
      var saved := SwapFailed(me, id, current, nowMs);
      if saved { return Ok(ToDetailed(Look(slots, id).task.value.value)); }
      ghost var s1 := Look(slots, id);
      var latest := Read(me, id, caller, nowMs);
      SeenStays(me, s1, Look(slots, id), current);
      RelyGrows(me, s1, Look(slots, id));
      CallsStay(me, s1, Look(slots, id), CreateFx(id));
      GrowsTransitive(s0, s1, Look(slots, id));
      match latest
      case Ok(record) => r := Ok(ToDetailed(record.value));
      case Unavailable => r := Unavailable;
      case _ => r := InvalidInput;
    }

    method SwapFailed(me: Pid, id: string, current: Record<Task>, nowMs: int) returns (saved: bool)
      requires Valid() && SlotInv(id, Look(slots, id)) && Seen(Look(slots, id), current)
      requires || current.value.status == Creating
               || (current.value.status == Working && CreationOpen(me, id, Look(slots, id)))
      modifies this
      ensures Valid() && SlotInv(id, Look(slots, id)) && Seen(Look(slots, id), current)
      ensures Grows(Look(old(slots), id), Look(slots, id)) && KeepsIndex(old(index), index)
      ensures Look(slots, id).task.value.revision > current.revision
      ensures CallsBegun(Look(old(slots), id), CreateFx(id)) <= CallsBegun(Look(slots, id), CreateFx(id))
    {
      hide SlotInv, KeyInv, Fx.Rely;
      ghost var s0 := Look(slots, id);
      Interfere(me, id);
      ghost var s1 := Look(slots, id);
      CallsStay(me, s0, s1, CreateFx(id));
      if current.value.status == Working { CreationStaysOpen(me, id, s0, s1); }
      SeenStays(me, s0, s1, current);
      var failed := current.value.(status := Failed, sanitizedError := Some(CREATE_UNCERTAIN), updatedAt := nowMs);
      var result := CasTask(me, id, current.revision, failed, nowMs, FailUncertain);
      SeenGrows(s1, Look(slots, id), current);
      GrowsTransitive(s0, s1, Look(slots, id));
      saved := result.Updated?;
    }

    // ---------------------------------------------------------------- start

    /** From the moment `me` created the record: claim, call the provider, save the
        handle, record the receipt; anything else fails the task closed. */
    method CreateAtProvider(me: Pid, id: string, created: Record<Task>, caller: Caller, nowMs: int,
            answer: Option<string>, fault: bool)
      returns (r: Reply<Detailed>, ghost reported: Record<Task>, ghost found: Record<Task>)
      requires Valid() && SlotInv(id, Look(slots, id)) && Seen(Look(slots, id), created)
      requires created.value.status == Creating && Look(slots, id).maker == Some(me)
      requires CreateFx(id) !in Look(slots, id).cells
      modifies this
      ensures Valid() && SlotInv(id, Look(slots, id)) && Seen(Look(slots, id), created) && KeepsIndex(old(index), index)
      ensures r.Ok? ==> Seen(Look(slots, id), reported) && Frozen(created.value, reported.value)
                        && r.value == ToDetailed(reported.value)
      ensures CreatedAs(created, found, Look(slots, id), id, caller, nowMs, answer, fault, r)
      ensures CallsBegun(Look(slots, id), CreateFx(id)) > 0 && Look(slots, id).maker == Some(me)
    {
      hide SlotInv, KeyInv, SlotRely, CreatedAs, Grows;
      var fx := CreateFx(id);
      reported, found := created, created;
      ghost var s0 := Look(slots, id);
      Interfere(me, id);
      SeenStays(me, s0, Look(slots, id), created);
      CellRely(me, s0, Look(slots, id), fx);
      var claim := ClaimEffect(me, id, fx, nowMs);
      ghost var s1 := Look(slots, id);
      if claim.ClaimExisting? {
        r := FailTaskUncertain(me, id, created, caller, nowMs);
        reported := Look(slots, id).task.value;
        OnlyMakerClaims(id, s1);
        return;
      }
      Interfere(me, id);
      ClaimStays(me, s1, Look(slots, id), fx);
      CellRely(me, s1, Look(slots, id), fx);
      SeenStays(me, s1, Look(slots, id), created);
      var inflight := TransitionEffect(me, id, fx, claim.revision, Arm, nowMs);
      if !inflight { return UpstreamError, reported, found; }
      ghost var s2 := Look(slots, id);
      BeginCall(me, id, fx, nowMs);
      ghost var s3 := Look(slots, id);
      SeenGrows(s2, s3, created);
      MakerStays(s2, s3);
      EndCall(me, id, fx, claim.revision + 1, answer.Some?, nowMs);
      SeenGrows(s3, Look(slots, id), created);
      MakerStays(s3, Look(slots, id));
      r, reported, found := SaveProviderHandle(me, id, created, caller, nowMs, answer, claim.revision + 1, fault);
    }

    /** The handle is written on the task before the receipt on the journal; a normal
        answer reports both, or the task as it stands after the attempt to fail it. Either
        way the task has left the record it was created with. */
    method SaveProviderHandle(me: Pid, id: string, created: Record<Task>, caller: Caller, nowMs: int,
            answer: Option<string>, inflight: nat, fault: bool)
      returns (r: Reply<Detailed>, ghost reported: Record<Task>, ghost found: Record<Task>)
      requires Valid() && SlotInv(id, Look(slots, id)) && Seen(Look(slots, id), created)
      requires created.value.status == Creating && MyCall(me, Look(slots, id), CreateFx(id), inflight)
      modifies this
      ensures Valid() && SlotInv(id, Look(slots, id)) && Seen(Look(slots, id), created) && KeepsIndex(old(index), index)
      ensures r.Ok? ==> Seen(Look(slots, id), reported) && Frozen(created.value, reported.value)
                        && r.value == ToDetailed(reported.value)
      ensures Look(slots, id).task.value.revision > created.revision
      ensures CreatedAs(created, found, Look(slots, id), id, caller, nowMs, answer, fault, r)
      ensures r.Ok? && answer.Some? && found == created && !fault ==>
                HandleThenReceipt(Look(slots, id), CreateFx(id), answer, reported, created.revision)
      ensures CallsBegun(Look(old(slots), id), CreateFx(id)) <= CallsBegun(Look(slots, id), CreateFx(id))
      ensures Look(slots, id).maker == Look(old(slots), id).maker
    {
      hide SlotInv, KeyInv, Fx.Rely, SlotRely, Told;
      var fx := CreateFx(id);
      reported := created;
      ghost var s0 := Look(slots, id);
      Interfere(me, id);
      MyCallStays(me, s0, Look(slots, id), fx, inflight);
      SeenStays(me, s0, Look(slots, id), created);
      CallsStay(me, s0, Look(slots, id), fx);
      CellRely(me, s0, Look(slots, id), fx);
      found := Look(slots, id).task.value;
      if answer.None? {
        r, reported := CreationUncertain(me, id, created, created, caller, nowMs, inflight);
        return;
      }
      var next := created.value.(providerTaskId := answer, status := Working, updatedAt := nowMs, nextPollAt := nowMs);
      ghost var sCas := Look(slots, id);
      var saved := CasTask(me, id, created.revision, next, nowMs, SaveHandle(answer.value));
      if !saved.Updated? {
        r, reported := CreationUncertain(me, id, created, created, caller, nowMs, inflight);
        return;
      }
      SeenGrows(sCas, Look(slots, id), created);
      SeenRefl(Look(slots, id));
      assert saved.record == Handled(created, answer.value, nowMs);
      r, reported := RecordCreation(me, id, created, saved.record, caller, nowMs, answer, inflight, fault);
    }

    method RecordCreation(me: Pid, id: string, created: Record<Task>, handled: Record<Task>, caller: Caller, nowMs: int,
            answer: Option<string>, inflight: nat, fault: bool)
      returns (r: Reply<Detailed>, ghost reported: Record<Task>)
      requires Valid() && SlotInv(id, Look(slots, id)) && Seen(Look(slots, id), created)
               && Seen(Look(slots, id), handled)
      requires MyCall(me, Look(slots, id), CreateFx(id), inflight) && TaskGrows(created, handled)
      requires answer.Some? && handled.value.providerTaskId == answer && handled.value.status == Working
               && handled.revision == created.revision + 1
      modifies this
      ensures Valid() && SlotInv(id, Look(slots, id)) && Seen(Look(slots, id), created) && KeepsIndex(old(index), index)
      ensures r.Ok? ==> Seen(Look(slots, id), reported) && Frozen(created.value, reported.value)
                        && r.value == ToDetailed(reported.value)
      ensures Look(slots, id).task.value.revision > created.revision
      ensures Seen(Look(slots, id), handled)
      ensures if fault then AsItIs(Look(slots, id), id, caller, nowMs, r)
              else r == Ok(ToDetailed(handled.value)) && reported == handled
                   && HandleThenReceipt(Look(slots, id), CreateFx(id), answer, reported, created.revision)
      ensures CallsBegun(Look(old(slots), id), CreateFx(id)) <= CallsBegun(Look(slots, id), CreateFx(id))
      ensures Look(slots, id).maker == Look(old(slots), id).maker
    {
      hide SlotInv, KeyInv, Fx.Rely, SlotRely, Told;
      var fx := CreateFx(id);
      reported := handled;
      ghost var s0 := Look(slots, id);
      Interfere(me, id);
      ghost var s1 := Look(slots, id);
      MyCallStays(me, s0, s1, fx, inflight);
      SeenStays(me, s0, s1, handled);
      SeenStays(me, s0, s1, created);
      CallsStay(me, s0, s1, fx);
      CellRely(me, s0, s1, fx);
      var receipt, succeeded := Some(Note("provider-handle-persisted")), false;
      if !fault { succeeded := TransitionEffect(me, id, fx, inflight, Settle(Succeeded, receipt), nowMs); }
      if succeeded { return Ok(ToDetailed(handled.value)), handled; }
      r, reported := CreationUncertain(me, id, created, handled, caller, nowMs, inflight);
    }

    /** The catch block of `start`: mark the effect uncertain if that still can be done,
        and fail the task. */
    method CreationUncertain(me: Pid, id: string, created: Record<Task>, current: Record<Task>, caller: Caller,
            nowMs: int, inflight: nat)
      returns (r: Reply<Detailed>, ghost reported: Record<Task>)
      requires Valid() && SlotInv(id, Look(slots, id)) && Seen(Look(slots, id), created)
               && Seen(Look(slots, id), current)
      requires current.value.status == Creating || current.value.status == Working
      requires MyCall(me, Look(slots, id), CreateFx(id), inflight)
      modifies this
      ensures Valid() && SlotInv(id, Look(slots, id)) && Seen(Look(slots, id), created) && KeepsIndex(old(index), index)
      ensures Look(slots, id).task.value.revision > current.revision && Seen(Look(slots, id), current)
      ensures r.Ok? ==> Look(slots, id).task == Some(reported)
      ensures r.Ok? ==> Seen(Look(slots, id), reported) && Frozen(created.value, reported.value)
                        && r.value == ToDetailed(reported.value)
      ensures AsItIs(Look(slots, id), id, caller, nowMs, r)
      ensures CallsBegun(Look(old(slots), id), CreateFx(id)) <= CallsBegun(Look(slots, id), CreateFx(id))
      ensures Look(slots, id).maker == Look(old(slots), id).maker
    {
      hide SlotInv, KeyInv, SlotRely, Fx.Rely, Told;
      ghost var s0 := Look(slots, id);
      Interfere(me, id);
      MyCallStays(me, s0, Look(slots, id), CreateFx(id), inflight);
      SeenStays(me, s0, Look(slots, id), created);
      SeenStays(me, s0, Look(slots, id), current);
      CallsStay(me, s0, Look(slots, id), CreateFx(id));
      CellRely(me, s0, Look(slots, id), CreateFx(id));
      var _ := TransitionEffect(me, id, CreateFx(id), inflight, Settle(Uncertain, None), nowMs);
      ghost var s1 := Look(slots, id);
      r := FailTaskUncertain(me, id, current, caller, nowMs);
      SeenGrows(s1, Look(slots, id), created);
      reported := Look(slots, id).task.value;
    }

    /** The task id a start works on: its own, or the one its idempotency key is bound to. */
    method BindIdempotencyKey(me: Pid, input: string, caller: Caller, key: Option<string>, newId: string)
      returns (r: Reply<string>)
      requires Valid()
      modifies this
      ensures Valid() && KeepsIndex(old(index), index)
      ensures key.None? ==> r == Ok(newId)
      ensures key.Some? ==>
                var k := IdempotencyKey(caller.ownerId, caller.credentialBinding, key.value);
                k in index && r == if index[k].fingerprint == input then Ok(index[k].taskId) else InvalidInput
    {
      hide SlotInv, KeyInv;
      if key.None? { return Ok(newId); }
      var k := IdempotencyKey(caller.ownerId, caller.credentialBinding, key.value);
      Interfere(me, newId);
      if k !in index {
        IndexGrows(index, k, IndexEntry(newId, input), slots);
        index := index[k := IndexEntry(newId, input)];
      }
      if index[k].fingerprint != input { return InvalidInput; }
      r := Ok(index[k].taskId);
    }

    /** Starts with one idempotency key all report on one task record; only the worker
        whose write created that record claims its creation, and it does call the provider.
        A record it made is made of the request, and a handle answered in time is on it. */
    method Start(me: Pid, input: string, caller: Caller, ttlMs: int, key: Option<string>, nowMs: int, newId: string,
            answer: Option<string>, fault: bool)
      returns (r: Reply<Detailed>, ghost id: string, ghost reported: Record<Task>, ghost course: StartCourse)
      requires Valid()
      modifies this
      ensures Valid()
      ensures r.Ok? ==>
                && Seen(Look(slots, id), reported) && r.value == ToDetailed(reported.value)
                && OwnedBy(reported.value, caller) && reported.value.operationInput == input
                && reported.value.idempotencyKey == key
                && (key.Some? ==> BoundTo(index, caller, key.value, id))
                && MadeBy(Look(slots, id), CreateFx(id))
      ensures course.Refused? ==>
                r == InvalidInput && (!ValidStart(caller, ttlMs, key, nowMs) || KeyTaken(index, caller, key, input))
      ensures course.FoundThere? ==> AsFound(course.found, Look(slots, id), id, caller, input, key, nowMs, r)
      ensures course.Made? ==>
                && course.created == NewlyMade(id, input, caller, ttlMs, key, nowMs)
                && Seen(Look(slots, id), course.created)
                && Look(slots, id).maker == Some(me) && CallsBegun(Look(slots, id), CreateFx(id)) > 0
                && CreatedAs(course.created, course.foundThen, Look(slots, id), id, caller, nowMs, answer, fault, r)
    {
      hide SlotInv, KeyInv, AsFound, CreatedAs, MadeBy, Seen, CallsBegun;
      course := Refused;
      id, reported := newId, Fresh(NewRecord(newId, input, caller, ttlMs, key, nowMs), nowMs, None);
      if !ValidIdentity(caller.ownerId) || !ValidIdentity(caller.credentialBinding)
         || !(60_000 <= ttlMs <= 86_400_000) || (key.Some? && !ValidIdentity(key.value)) || !SafeTime(nowMs) {
        r := InvalidInput;
        return;
      }
      var bound := BindIdempotencyKey(me, input, caller, key, newId);
      if !bound.Ok? {
        r := InvalidInput;
        return;
      }
      var taskId := bound.value;
      id := taskId;
      r, reported, course := StartBound(me, taskId, input, caller, ttlMs, key, nowMs, answer, fault);
    }

    /** The record as a start makes it. */
    function NewlyMade(id: string, input: string, caller: Caller, ttlMs: int, key: Option<string>, nowMs: int)
      : Record<Task>
    {
      Fresh(NewRecord(id, input, caller, ttlMs, key, nowMs), nowMs, Some(nowMs + ttlMs))
    }

    function NewRecord(id: string, input: string, caller: Caller, ttlMs: int, key: Option<string>, nowMs: int): Task {
      Task(id, caller.ownerId, caller.credentialBinding, providerId, None, input, key, Creating, None, [], [], None,
           nowMs, nowMs, nowMs + ttlMs, ttlMs, pollIntervalMs, nowMs, None, false, false, false, false)
    }

    method StartBound(me: Pid, id: string, input: string, caller: Caller, ttlMs: int, key: Option<string>, nowMs: int,
            answer: Option<string>, fault: bool)
      returns (r: Reply<Detailed>, ghost reported: Record<Task>, ghost course: StartCourse)
      requires Valid() && (key.Some? ==> BoundTo(index, caller, key.value, id))
      modifies this
      ensures Valid() && KeepsIndex(old(index), index)
      ensures r.Ok? ==>
                && Seen(Look(slots, id), reported) && r.value == ToDetailed(reported.value)
                && OwnedBy(reported.value, caller) && reported.value.operationInput == input
                && reported.value.idempotencyKey == key
                && MadeBy(Look(slots, id), CreateFx(id))
      ensures !course.Refused?
      ensures course.FoundThere? ==> AsFound(course.found, Look(slots, id), id, caller, input, key, nowMs, r)
      ensures course.Made? ==>
                && course.created == NewlyMade(id, input, caller, ttlMs, key, nowMs)
                && Seen(Look(slots, id), course.created)
                && Look(slots, id).maker == Some(me) && CallsBegun(Look(slots, id), CreateFx(id)) > 0
                && CreatedAs(course.created, course.foundThen, Look(slots, id), id, caller, nowMs, answer, fault, r)
    {
      hide SlotInv, KeyInv, CreatedAs, CallsBegun, Told;
      var initial := NewRecord(id, input, caller, ttlMs, key, nowMs);
      Interfere(me, id);
      var existed := Look(slots, id).task.Some?;
      if !existed {
        NothingYet(id, Look(slots, id));
        Step(me, id, NewTask(initial), nowMs);
      }
      var current := Look(slots, id).task.value;
      reported, course := current, FoundThere(current);
      SeenRefl(Look(slots, id));
      if !OwnedBy(current.value, caller) {
        r := Unavailable;
        return;
      }
      if current.value.idempotencyKey != key || current.value.operationInput != input {
        r := InvalidInput;
        return;
      }
      if existed {
        if current.value.status != Creating {
          OnlyMakerClaims(id, Look(slots, id));
          r := Ok(ToDetailed(current.value));
          return;
        }
        r := FailTaskUncertain(me, id, current, caller, nowMs);
        OnlyMakerClaims(id, Look(slots, id));
        reported := Look(slots, id).task.value;
        return;
      }
      ghost var rep, foundThen;
      ghost var s1 := Look(slots, id);
      r, rep, foundThen := CreateAtProvider(me, id, current, caller, nowMs, answer, fault);
      reported, course := rep, Made(current, foundThen);
      OnlyMakerClaims(id, Look(slots, id));
    }

    // ---------------------------------------------------------------- get

    /** Reads a task, polling the provider when the lease can be taken. If the lease is still
        the newest revision when the provider's `answer` is filed, that answer is shown. */
    method Get(me: Pid, id: string, caller: Caller, nowMs: int, answer: PollAnswer, aborted: bool)
      returns (r: Reply<Detailed>, ghost reported: Record<Task>, ghost course: GetCourse)
      requires Valid() && AskedRightly(answer)
      modifies this
      ensures Valid() && KeepsIndex(old(index), index)
      ensures Went(course, Look(slots, id), id, caller, nowMs, answer, aborted, r)
      ensures r.Ok? ==>
                Seen(Look(slots, id), reported) && OwnedBy(reported.value, caller)
                  && r.value == ToDetailed(reported.value)
    {
      hide SlotInv, KeyInv, Shown, ToDetailed, AnsweredUnder;
      reported, course := Fresh(NewRecord(id, "", caller, 0, None, nowMs), nowMs, None), NotRead;
      var read := Read(me, id, caller, nowMs);
      if !read.Ok? {
        r := if read.Unavailable? then Unavailable else InvalidInput;
        return;
      }
      var current := read.value;
      reported, course := current, AsItStands(current);
      if Terminal(current.value.status) || current.value.status == InputRequired || nowMs < current.value.nextPollAt {
        r := Ok(ToDetailed(current.value));
        return;
      }
      if current.value.status == Creating || current.value.providerTaskId.None? {
        course := Unfinished(current);
        HandleThere(id, Look(slots, id), current);
        r := FailTaskUncertain(me, id, current, caller, nowMs);
        reported := Look(slots, id).task.value;
        return;
      }
      ghost var s0 := Look(slots, id);
      Interfere(me, id);
      SeenStays(me, s0, Look(slots, id), current);
      var leased := current.value.(updatedAt := nowMs, nextPollAt := nowMs + current.value.pollIntervalMs);
      var lease := CasTask(me, id, current.revision, leased, nowMs, TakeLease);
      if lease.Updated? {
        r, reported, course := PollLeased(me, id, lease.record, caller, nowMs, answer, aborted);
        return;
      }
      course := LeaseLost(current, Look(slots, id).task.value);
      r, reported := ShowCurrent(me, id, caller, nowMs);
    }

    /** The task as it is now. */
    method ShowCurrent(me: Pid, id: string, caller: Caller, nowMs: int)
      returns (r: Reply<Detailed>, ghost reported: Record<Task>)
      requires Valid() && SlotInv(id, Look(slots, id)) && Look(slots, id).task.Some?
      modifies this
      ensures Valid() && KeepsIndex(old(index), index) && SlotInv(id, Look(slots, id))
      ensures Grows(Look(old(slots), id), Look(slots, id)) && Seen(Look(slots, id), reported)
      ensures r.Ok? ==> OwnedBy(reported.value, caller) && r.value == ToDetailed(reported.value)
      ensures r == InReply(Told(Look(slots, id), id, caller, nowMs))
    {
      hide SlotInv, KeyInv, ToDetailed;
      reported := Look(slots, id).task.value;
      var latest := Read(me, id, caller, nowMs);
      if latest.Ok? {
        reported := latest.value;
        r := Ok(ToDetailed(latest.value.value));
      } else {
        r := if latest.Unavailable? then Unavailable else InvalidInput;
      }
    }

    /** One provider call for one lease revision, then its outcome. */
    method PollLeased(me: Pid, id: string, lease: Record<Task>, caller: Caller, nowMs: int, answer: PollAnswer,
            aborted: bool)
      returns (r: Reply<Detailed>, ghost reported: Record<Task>, ghost course: GetCourse)
      requires Valid() && SlotInv(id, Look(slots, id)) && Seen(Look(slots, id), lease)
      requires lease.value.status == Working && OwnedBy(lease.value, caller)
      requires lease.revision in Look(slots, id).pollers && Look(slots, id).pollers[lease.revision] == me
      requires AskedRightly(answer)
      modifies this
      ensures Valid() && KeepsIndex(old(index), index)
      ensures lease.revision in Look(slots, id).polled
      ensures course == Stopped(lease) || course == Filed(lease) || (course.Overtaken? && course.lease == lease)
      ensures Went(course, Look(slots, id), id, caller, nowMs, answer, aborted, r)
      ensures r.Ok? ==>
                Seen(Look(slots, id), reported) && OwnedBy(reported.value, caller)
                  && r.value == ToDetailed(reported.value)
    {
      hide SlotInv, KeyInv;
      reported, course := lease, Stopped(lease);
      ghost var s0 := Look(slots, id);
      Interfere(me, id);
      SeenStays(me, s0, Look(slots, id), lease);
      Step(me, id, Poll(lease.revision, answer), nowMs);
      ghost var s1 := Look(slots, id);
      assert lease.revision in s1.polled by { assert s1.polled[|s1.polled| - 1] == lease.revision; }
      if answer.PollThrew? && aborted {
        r := Aborted;
        return;
      }
      var outcome := if answer.Replied? then answer.reply else Broke(Some(answer.error));
      ghost var filed;
      r, reported, filed := PersistPollOutcome(me, id, lease, outcome, caller, nowMs);
      course := if filed == lease then Filed(lease) else Overtaken(lease, filed);
      FiledIsShown(lease.value, answer, nowMs);
    }

    /** Files the outcome on the record it was polled under, or shows what has overtaken it;
        `found` is the record at the swap. */
    method PersistPollOutcome(me: Pid, id: string, current: Record<Task>, outcome: PollOutcome, caller: Caller,
            nowMs: int)
      returns (r: Reply<Detailed>, ghost reported: Record<Task>, ghost found: Record<Task>)
      requires Valid() && SlotInv(id, Look(slots, id)) && Seen(Look(slots, id), current)
      requires current.value.status == Working && OwnedBy(current.value, caller)
      requires current.revision in Look(slots, id).answers
               && OutcomeOf(Look(slots, id).answers[current.revision]) == outcome
      modifies this
      ensures Valid() && KeepsIndex(old(index), index)
      ensures Look(old(slots), id).polled <= Look(slots, id).polled
      ensures Look(slots, id).answers.Keys >= {current.revision}
              && Look(slots, id).answers[current.revision] == Look(old(slots), id).answers[current.revision]
      ensures found == current || found.revision > current.revision
      ensures found == current ==> r == Ok(ToDetailed(AfterWrite(current.value, PersistOutcome(outcome), nowMs)))
      ensures found != current ==> r == InReply(Told(Look(slots, id), id, caller, nowMs))
      ensures r.Ok? ==>
                Seen(Look(slots, id), reported) && OwnedBy(reported.value, caller)
                  && r.value == ToDetailed(reported.value)
    {
      hide SlotInv, KeyInv;
      reported := current;
      var t := current.value;
      var next: Task;
      match outcome {
        case Done(result, billing) =>
          next := t.(status := Completed, result := Some(if result.Some? then result.value else "{}"),
                     billing := billing,
                     updatedAt := nowMs);
        case Broke(error) =>
          next := t.(status := Failed, updatedAt := nowMs,
                     sanitizedError := Some(if error.Some? then error.value else "The provider task failed"));
        case NeedsInput(requests) =>
          var unused := KeySet(requests) - Elements(t.usedInputKeys);
          next := t.(status := InputRequired, inputRequests := Select(requests, unused), updatedAt := nowMs);
        case StillWorking =>
          next := t.(status := Working, updatedAt := nowMs);
      }
      r, reported, found := SaveOutcome(me, id, current, next, outcome, caller, nowMs);
    }

    method SaveOutcome(me: Pid, id: string, current: Record<Task>, next: Task, outcome: PollOutcome, caller: Caller,
            nowMs: int)
      returns (r: Reply<Detailed>, ghost reported: Record<Task>, ghost found: Record<Task>)
      requires Valid() && SlotInv(id, Look(slots, id)) && Seen(Look(slots, id), current)
      requires current.value.status == Working && OwnedBy(current.value, caller)
      requires current.revision in Look(slots, id).answers
               && OutcomeOf(Look(slots, id).answers[current.revision]) == outcome
      requires next == AfterWrite(current.value, PersistOutcome(outcome), nowMs)
      modifies this
      ensures Valid() && KeepsIndex(old(index), index)
      ensures Look(old(slots), id).polled <= Look(slots, id).polled
      ensures Look(slots, id).answers.Keys >= {current.revision}
              && Look(slots, id).answers[current.revision] == Look(old(slots), id).answers[current.revision]
      ensures found == current || found.revision > current.revision
      ensures found == current ==> r == Ok(ToDetailed(AfterWrite(current.value, PersistOutcome(outcome), nowMs)))
      ensures found != current ==> r == InReply(Told(Look(slots, id), id, caller, nowMs))
      ensures r.Ok? ==>
                Seen(Look(slots, id), reported) && OwnedBy(reported.value, caller)
                  && r.value == ToDetailed(reported.value)
    {
      hide SlotInv, KeyInv;
      reported := current;
      ghost var s0 := Look(slots, id);
      Interfere(me, id);
      SeenStays(me, s0, Look(slots, id), current);
      ghost var s1 := Look(slots, id);
      found := s1.task.value;
      var result := CasTask(me, id, current.revision, next, nowMs, PersistOutcome(outcome));
      ghost var s2 := Look(slots, id);
      GrowsTransitive(s0, s1, s2);
      if result.Updated? {
        reported := result.record;
        r := Ok(ToDetailed(result.record.value));
        return;
      }
      r, reported := ShowCurrent(me, id, caller, nowMs);
      GrowsTransitive(s0, s2, Look(slots, id));
    }

    /** Only the caller flag is set, on the very record read; `lost` means the record had
        moved by the swap, `found`, and nothing was written. */
    method StopWaitingFor(me: Pid, id: string, caller: Caller, nowMs: int)
      returns (r: Reply<()>, lost: bool, ghost read: Record<Task>, ghost found: Record<Task>)
      requires Valid()
      modifies this
      ensures Valid() && Grows(Look(old(slots), id), Look(slots, id))
      ensures lost ==> r.Ok? && !read.value.callerCancelled && TaskGrows(read, found) && found.revision > read.revision
                       && Look(slots, id).task == Some(found)
      ensures r.Ok? ==> OwnedBy(read.value, caller) && nowMs < read.value.expiresAt
                        && (Look(old(slots), id).task.Some? ==> TaskGrows(Look(old(slots), id).task.value, read))
      ensures !r.Ok? ==> SameError(r, Told(Look(slots, id), id, caller, nowMs))
      ensures r.Ok? && !lost ==>
                Look(slots, id).task == Some(if read.value.callerCancelled then read else Bump(read,
                  read.value.(callerCancelled := true, updatedAt := nowMs), nowMs, Some(read.value.expiresAt)))
    {
      hide SlotInv, KeyInv;
      lost := false;
      ghost var sFirst := Look(slots, id);
      read := Fresh(NewRecord(id, "", caller, 0, None, nowMs), nowMs, None);
      found := read;
      var current := Read(me, id, caller, nowMs);
      if !current.Ok? {
        r := if current.Unavailable? then Unavailable else InvalidInput;
        return;
      }
      read, found := current.value, current.value;
      if current.value.value.callerCancelled {
        r := Ok(());
        return;
      }
      var next := current.value.value.(callerCancelled := true, updatedAt := nowMs);
      ghost var s0 := Look(slots, id);
      Interfere(me, id);
      SeenStays(me, s0, Look(slots, id), current.value);
      GrowsTransitive(sFirst, s0, Look(slots, id));
      ghost var s1 := Look(slots, id);
      found := s1.task.value;
      var saved := CasTask(me, id, current.value.revision, next, nowMs, StopWaiting);
      GrowsTransitive(sFirst, s1, Look(slots, id));
      lost := !saved.Updated?;
      r := Ok(());
    }

    // ---------------------------------------------------------------- update

    /** Sends exactly the requested, unused inputs at most once and records them as used. A normal
        return means they were delivered in one call and are used up; any doubt about
        that call is an error. */
    method Update(me: Pid, id: string, responses: seq<Entry>, caller: Caller, nowMs: int, delivered: bool)
      returns (r: Reply<seq<Entry>>, ghost seen: Record<Task>, ghost course: UpdateCourse)
      requires Valid() && DistinctKeys(responses)
      modifies this
      ensures Valid()
      ensures r.Ok? ==>
                && OwnedBy(seen.value, caller) && seen.value.status == InputRequired
                && (Look(old(slots), id).task.Some? ==> TaskGrows(Look(old(slots), id).task.value, seen))
                && (forall e :: e in r.value <==>
                      e in responses && e.key in KeySet(seen.value.inputRequests) && e.key !in seen.value.usedInputKeys)
                && (r.value != [] ==> exists epoch :: Delivery(epoch, r.value) in Look(slots, id).deliveries)
                && Look(slots, id).task.Some?
                && KeySet(r.value) <= Elements(Look(slots, id).task.value.value.usedInputKeys)
      ensures UpdatedAs(course, seen, Look(slots, id), id, caller, nowMs, AcceptedInputs(seen.value, responses),
                        providerUpdates, delivered, r)
    {
      hide SlotInv, KeyInv, SlotRely, Grows;
      course := Unread;
      seen := Fresh(NewRecord(id, "", caller, 0, None, nowMs), nowMs, None);
      ghost var sFirst := Look(slots, id);
      var read := Read(me, id, caller, nowMs);
      ReadLater(me, sFirst, Look(slots, id));
      if !read.Ok? {
        r := if read.Unavailable? then Unavailable else InvalidInput;
        return;
      }
      var current := read.value;
      seen, course := current, NotAsked;
      if current.value.status != InputRequired {
        r := InvalidInput;
        return;
      }
      var accepted := AcceptedInputs(current.value, responses);
      SelectFilters(responses, KeySet(current.value.inputRequests) - Elements(current.value.usedInputKeys));
      course := NoneWanted;
      if accepted == [] {
        r := Ok([]);
        return;
      }
      course := NoWayToSend;
      HandleThere(id, Look(slots, id), current);
      if !providerUpdates || current.value.providerTaskId.None? {
        r := InvalidInput;
        return;
      }
      EpochIsPast(id, Look(slots, id));
      ghost var s0 := Look(slots, id);
      var ok, standing := DeliverOnce(me, id, current, accepted, nowMs, delivered);
      course := NotDelivered(standing);
      if !ok {
        r := UpstreamError;
        return;
      }
      SeenRefl(s0);
      SeenGrows(s0, Look(slots, id), current);
      course := Delivered;
      var recorded := RecordAccepted(me, id, current, accepted, caller, nowMs);
      r := if recorded.Ok? then Ok(accepted) else if recorded.Unavailable? then Unavailable else InvalidInput;
    }

    /** True only if the provider got `accepted` for this epoch: from this worker now, or
        from one whose recorded receipt is for the same entries. */
    method DeliverOnce(me: Pid, id: string, current: Record<Task>, accepted: seq<Entry>, nowMs: int, delivered: bool)
      returns (ok: bool, ghost standing: Option<Cell>)
      requires Valid() && SlotInv(id, Look(slots, id)) && Look(slots, id).task == Some(current)
      requires EpochOf(current.value) in Look(slots, id).past && Answers(EpochOf(current.value), accepted)
      modifies this
      ensures Valid() && SlotInv(id, Look(slots, id)) && Grows(Look(old(slots), id), Look(slots, id))
      ensures ok ==> Delivery(EpochOf(current.value), accepted) in Look(slots, id).deliveries
      ensures standing.None? ==> (ok <==> delivered)
      ensures standing.Some? ==> (ok <==> Answered(standing.value, accepted))
    {
      hide SlotInv, KeyInv;
      standing := None;
      var epoch := EpochOf(current.value);
      var fx := UpdateFx(id, epoch);
      ghost var s0 := Look(slots, id);
      Interfere(me, id);
      var claim := ClaimEffect(me, id, fx, nowMs);
      ghost var s1 := Look(slots, id);
      assert Grows(s0, s1);
      if claim.ClaimExisting? {
        standing := Some(s1.cells[fx]);
        ok := claim.effect.status == Succeeded && claim.effect.receipt == Some(ResponseTo(accepted));
        if ok { SettledWasDelivered(id, s1, fx, accepted); }
        return;
      }
      Interfere(me, id);
      ghost var s2 := Look(slots, id);
      ClaimStays(me, s1, s2, fx);
      GrowsTransitive(s0, s1, s2);
      var inflight := TransitionEffect(me, id, fx, claim.revision, Arm, nowMs);
      ghost var s3 := Look(slots, id);
      if !inflight { return false, standing; }
      ok := SendInputs(me, id, epoch, accepted, claim.revision + 1, nowMs, delivered);
      GrowsTransitive(s0, s3, Look(slots, id));
    }

    method SendInputs(me: Pid, id: string, epoch: OperationKey, accepted: seq<Entry>, inflight: nat, nowMs: int,
            delivered: bool)
      returns (ok: bool)
      requires Valid() && SlotInv(id, Look(slots, id)) && Look(slots, id).task.Some?
      requires epoch in Look(slots, id).past && Answers(epoch, accepted) && UpdateFx(id, epoch) in Look(slots, id).cells
      requires var c := Look(slots, id).cells[UpdateFx(id, epoch)];
               c.holder == me && c.armed && c.record.revision == inflight
      modifies this
      ensures Valid() && SlotInv(id, Look(slots, id)) && Grows(Look(old(slots), id), Look(slots, id))
      ensures ok ==> Delivery(epoch, accepted) in Look(slots, id).deliveries
      ensures ok <==> delivered
    {
      hide SlotInv, KeyInv, SlotRely, Fx.Rely;
      var fx := UpdateFx(id, epoch);
      ghost var s0 := Look(slots, id);
      CellInvAt(id, s0, fx);
      Interfere(me, id);
      ghost var s1 := Look(slots, id);
      MineStays(me, s0, s1, fx);
      Step(me, id, Deliver(epoch, accepted), nowMs);
      ghost var s2 := Look(slots, id);
      GrowsTransitive(s0, s1, s2);
      assert s2.deliveries[|s2.deliveries| - 1] == Delivery(epoch, accepted);
      EndCall(me, id, fx, inflight, delivered, nowMs);
      ghost var s3 := Look(slots, id);
      GrowsTransitive(s0, s2, s3);
      Interfere(me, id);
      ghost var s4 := Look(slots, id);
      RelyGrows(me, s3, s4);
      GrowsTransitive(s0, s3, s4);
      MyCallStays(me, s3, s4, fx, inflight);
      var act := if delivered then Settle(Succeeded, Some(ResponseTo(accepted))) else Settle(Uncertain, None);
      assert Delivery(epoch, accepted) in s4.deliveries;
      var written := TransitionEffect(me, id, fx, inflight, act, nowMs);
      GrowsTransitive(s0, s4, Look(slots, id));
      ok := delivered && written;
    }

    /** The compare-and-swap loop: only the write for the answered epoch is retried. */
    method RecordAccepted(me: Pid, id: string, start: Record<Task>, accepted: seq<Entry>, caller: Caller, nowMs: int)
      returns (r: Reply<()>)
      requires Valid() && SlotInv(id, Look(slots, id)) && Seen(Look(slots, id), start)
              && start.value.status == InputRequired
      requires Delivery(EpochOf(start.value), accepted) in Look(slots, id).deliveries
      modifies this
      ensures Valid() && Delivery(EpochOf(start.value), accepted) in Look(slots, id).deliveries
      ensures r.Ok? ==> Look(slots, id).task.Some?
                        && KeySet(accepted) <= Elements(Look(slots, id).task.value.value.usedInputKeys)
      ensures !r.Ok? ==> LeftBehind(Look(slots, id), start)
    {
      hide SlotInv, KeyInv;
      var current := start;
      for attempt := 0 to 4
        invariant start.revision <= current.revision && (attempt > 0 ==> start.revision < current.revision)
        invariant Valid() && SlotInv(id, Look(slots, id)) && Seen(Look(slots, id), current)
        invariant current.value.status == InputRequired && EpochOf(current.value) == EpochOf(start.value)
        invariant Delivery(EpochOf(start.value), accepted) in Look(slots, id).deliveries
      {
        var t := current.value;
        var remaining := Select(t.inputRequests, KeySet(t.inputRequests) - KeySet(accepted));
        var next := t.(status := if remaining == [] then Working else InputRequired, inputRequests := remaining,
                       usedInputKeys := t.usedInputKeys + KeyList(accepted), updatedAt := nowMs, nextPollAt := nowMs);
        ghost var s0 := Look(slots, id);
        Interfere(me, id);
        SeenStays(me, s0, Look(slots, id), current);
        var saved := CasTask(me, id, current.revision, next, nowMs, AcceptInput(accepted));
        match saved {
          case Updated(record) =>
            AcceptedAreUsed(t.usedInputKeys, accepted);
            return Ok(());
          case Missing => return Unavailable;
          case Conflict(record) =>
            current := record;
        }
        if !OwnedBy(current.value, caller) { return Unavailable; }
        if KeySet(accepted) <= Elements(current.value.usedInputKeys) { return Ok(()); }
        if current.value.status != InputRequired || EpochOf(current.value) != EpochOf(start.value) {
          return InvalidInput;
        }
        SeenRefl(Look(slots, id));
      }
      r := InvalidInput;
    }

    // ---------------------------------------------------------------- cancel

    /** Cancels the task and asks the provider to stop. `lost`: a normal return although
        the request was dropped, exactly when `CancelEndOf` says so of the record read and
        the one found at the swap; every other normal return leaves the task cancelled.
        `answer` is the provider's: acknowledged, refused, or None when the call threw. */
    method Cancel(me: Pid, id: string, caller: Caller, nowMs: int, answer: Option<bool>, faults: JournalFaults)
      returns (r: Reply<()>, lost: bool, ghost read: Record<Task>, ghost found: Record<Task>, ghost asking: Asking)
      requires Valid()
      modifies this
      ensures Valid()
      ensures r.Ok? && !lost ==>
                AskedUpstream(asking, Look(old(slots), id), Look(slots, id), CancelFx(id), providerCancels,
                              faults.atArm)
      ensures r.Ok? ==>
                && OwnedBy(read.value, caller) && nowMs < read.value.expiresAt && TaskGrows(read, found)
                && Seen(Look(slots, id), found)
                && (Look(old(slots), id).task.Some? ==> TaskGrows(Look(old(slots), id).task.value, read))
                && (lost <==> CancelEndOf(read, found) == CancelDropped)
                && (!lost <==> CancelEndOf(read, found) == CancelTakesEffect)
                && (!lost ==> MarkedCancelled(Look(slots, id).task.value.value))
      ensures lost ==> r.Ok? && Look(slots, id).task == Some(found) && found.value.status != Cancelled
      ensures !r.Ok? ==>
                || (r == InvalidInput && OwnedBy(read.value, caller) && CancelEndOf(read, found) == CancelRefused)
                || SameError(r, Told(Look(slots, id), id, caller, nowMs))
                || (r == UpstreamError && AcknowledgedUpstream(id, Look(slots, id)))
    {
      hide SlotInv, KeyInv, CancelEndOf, AskedUpstream;
      var cancelled;
      cancelled, lost, read, found := CancelRecord(me, id, caller, nowMs);
      asking := NotNeeded(found);
      if !cancelled.Ok? {
        r := if cancelled.Unavailable? then Unavailable else InvalidInput;
        return;
      }
      if lost { return Ok(()), lost, read, found, asking; }
      var current := cancelled.value;
      asking := NotNeeded(current);
      if current.value.upstreamCancelled || !providerCancels || current.value.providerTaskId.None? {
        NothingToAsk(current, Look(old(slots), id), Look(slots, id), CancelFx(id), providerCancels, faults.atArm);
        r := Ok(());
        return;
      }
      ghost var s1 := Look(slots, id);
      r, asking := CancelUpstream(me, id, current, caller, nowMs, answer, faults);
      SeenEarlier(Look(slots, id), found, current);
      AskedSince(asking, Look(old(slots), id), s1, Look(slots, id), CancelFx(id), providerCancels, faults.atArm);
    }

    /** The record's half of a cancellation: `found` is the record at the swap, or the one read
        when it was cancelled already. */
    method CancelRecord(me: Pid, id: string, caller: Caller, nowMs: int)
      returns (r: Reply<Record<Task>>, lost: bool, ghost read: Record<Task>, ghost found: Record<Task>)
      requires Valid()
      modifies this
      ensures Valid() && SlotInv(id, Look(slots, id)) && (r.Ok? || r.Unavailable? || r.InvalidInput?)
      ensures CallsBegun(Look(old(slots), id), CancelFx(id)) <= CallsBegun(Look(slots, id), CancelFx(id))
      ensures r.Ok? ==>
                && OwnedBy(read.value, caller) && nowMs < read.value.expiresAt && TaskGrows(read, found)
                && Seen(Look(slots, id), found) && TaskGrows(found, r.value) && Seen(Look(slots, id), r.value)
                && (Look(old(slots), id).task.Some? ==> TaskGrows(Look(old(slots), id).task.value, read))
                && (lost <==> CancelEndOf(read, found) == CancelDropped)
                && (!lost <==> CancelEndOf(read, found) == CancelTakesEffect)
                && (!lost ==> MarkedCancelled(r.value.value))
      ensures lost ==> r.Ok? && Look(slots, id).task == Some(found) && found.value.status != Cancelled
      ensures !r.Ok? ==>
                || (r == InvalidInput && OwnedBy(read.value, caller) && CancelEndOf(read, found) == CancelRefused)
                || SameError(r, Told(Look(slots, id), id, caller, nowMs))
    {
      hide SlotInv, KeyInv;
      lost := false;
      read := Fresh(NewRecord(id, "", caller, 0, None, nowMs), nowMs, None);
      found := read;
      ghost var sFirst := Look(slots, id);
      r := Read(me, id, caller, nowMs);
      CallsStay(me, sFirst, Look(slots, id), CancelFx(id));
      if !r.Ok? {
        r := if r.Unavailable? then Unavailable else InvalidInput;
        return;
      }
      var current := r.value;
      read, found := current, current;
      SeenRefl(Look(slots, id));
      if current.value.status == Cancelled {
        CancelledIsMarked(id, Look(slots, id));
        return;
      }
      if Terminal(current.value.status) {
        r := InvalidInput;
        return;
      }
      var next := current.value.(status := Cancelled, groundlanePollingCancelled := true,
                                 upstreamCancelRequested := true, updatedAt := nowMs);
      ghost var s0 := Look(slots, id);
      Interfere(me, id);
      SeenStays(me, s0, Look(slots, id), current);
      CallsStay(me, s0, Look(slots, id), CancelFx(id));
      found := Look(slots, id).task.value;
      SeenRefl(Look(slots, id));
      ghost var s1 := Look(slots, id);
      var saved := CasTask(me, id, current.revision, next, nowMs, CancelTask);
      if saved.Missing? {
        r := Unavailable;
        return;
      }
      SeenGrows(s1, Look(slots, id), found);
      SeenRefl(Look(slots, id));
      CancelledIsMarked(id, Look(slots, id));
      r := Ok(saved.record);
      if !OwnedBy(saved.record.value, caller) {
        r := Unavailable;
        return;
      }
      lost := saved.record.value.status != Cancelled;
    }

    method CancelUpstream(me: Pid, id: string, current: Record<Task>, caller: Caller, nowMs: int, answer: Option<bool>,
            faults: JournalFaults)
      returns (r: Reply<()>, ghost asking: Asking)
      requires Valid() && SlotInv(id, Look(slots, id)) && Seen(Look(slots, id), current)
               && current.value.status == Cancelled
      modifies this
      ensures Valid() && Seen(Look(slots, id), current) && !asking.NotNeeded?
      ensures AskedUpstream(asking, Look(old(slots), id), Look(slots, id), CancelFx(id), providerCancels, faults.atArm)
      ensures !r.Ok? ==> MarkingFailed(r, Look(slots, id), id, caller, nowMs)
    {
      hide SlotInv, KeyInv;
      var fx := CancelFx(id);
      ghost var s0 := Look(slots, id);
      Interfere(me, id);
      SeenStays(me, s0, Look(slots, id), current);
      CallsStay(me, s0, Look(slots, id), fx);
      var claim := ClaimEffect(me, id, fx, nowMs);
      assert Seen(Look(slots, id), current);
      var claimed := claim.revision;
      asking := Won;
      if claim.ClaimExisting? {
        asking := Standing(Look(slots, id).cells[fx]);
        if claim.effect.status == Succeeded {
          SucceededIsSettled(id, Look(slots, id));
          r := MarkCancelled(me, id, current, caller, nowMs);
          return;
        }
        if claim.effect.status != Uncertain { return Ok(()), asking; }
        ghost var s2 := Look(slots, id);
        Interfere(me, id);
        assert Fx.Rely(me, At(s2.cells, fx), At(Look(slots, id).cells, fx));
        CallsStay(me, s2, Look(slots, id), fx);
        SeenStays(me, s2, Look(slots, id), current);
        var retried := RetryEffect(me, id, fx, claim.revision, nowMs);
        if !retried { return Ok(()), asking; }
        asking, claimed := Won, claim.revision + 1;
      }
      r := CallCancel(me, id, current, claimed, caller, nowMs, answer, faults);
    }

    /** `effects.retry` as one atomic step. */
    method RetryEffect(me: Pid, id: string, fx: EffectId, expected: nat, nowMs: int) returns (granted: bool)
      requires Valid() && SlotInv(id, Look(slots, id)) && Look(slots, id).task.Some? && fx in Look(slots, id).cells
      requires fx.kind == ProviderTaskCancel && fx.jobId == id
      modifies this
      ensures Valid() && SlotInv(id, Look(slots, id)) && Grows(Look(old(slots), id), Look(slots, id))
      ensures Look(slots, id).task == Look(old(slots), id).task && fx in Look(slots, id).cells
      ensures granted ==> var c := Look(slots, id).cells[fx];
                          c.holder == me && c.Status() == Claimed && c.record.revision == expected + 1
      ensures CallsBegun(Look(slots, id), fx) == CallsBegun(Look(old(slots), id), fx)
      ensures var c := Look(old(slots), id).cells[fx];
              !granted ==>
                Look(slots, id).cells[fx] == c && (c.record.revision != expected || !Retryable(c.Effect()))
    {
      hide SlotInv, KeyInv;
      var c := Look(slots, id).cells[fx];
      if c.record.revision != expected || !Retryable(c.Effect()) { return false; }
      Step(me, id, Journalled(fx, Retry), nowMs);
      granted := true;
    }

    /** A normal return after an acknowledged call leaves the flag on the task if and only if
        no journal write threw; if one did the call is not made, or its acknowledgement stays
        unrecorded, and the return is normal all the same. */
    method CallCancel(me: Pid, id: string, current: Record<Task>, claimed: nat, caller: Caller, nowMs: int,
            answer: Option<bool>, faults: JournalFaults)
      returns (r: Reply<()>)
      requires Valid() && SlotInv(id, Look(slots, id)) && Seen(Look(slots, id), current)
              && current.value.status == Cancelled
      requires CancelFx(id) in Look(slots, id).cells
      requires var c := Look(slots, id).cells[CancelFx(id)];
               c.holder == me && c.Status() == Claimed && c.record.revision == claimed
      modifies this
      ensures Valid() && Seen(Look(slots, id), current)
      ensures answer == Some(true) && r.Ok? ==>
                (Look(slots, id).task.value.value.upstreamCancelled <==> faults == NO_FAULT)
      ensures answer == Some(true) && !faults.atArm && faults.atSettle ==> Unrecorded(me, id, Look(slots, id))
      ensures answer != Some(true) || faults != NO_FAULT ==> r.Ok?
      ensures faults.atArm || CallsBegun(Look(slots, id), CancelFx(id)) > CallsBegun(Look(old(slots), id), CancelFx(id))
      ensures !r.Ok? ==> MarkingFailed(r, Look(slots, id), id, caller, nowMs)
    {
      hide SlotInv, KeyInv, Fx.Rely;
      var fx := CancelFx(id);
      ghost var s0 := Look(slots, id);
      Interfere(me, id);
      ClaimStays(me, s0, Look(slots, id), fx);
      SeenStays(me, s0, Look(slots, id), current);
      if faults.atArm {
        ClaimedIsUnflagged(id, Look(slots, id));
        return Ok(());
      }
      var inflight := TransitionEffect(me, id, fx, claimed, Arm, nowMs);
      if !inflight { return Ok(()); }
      ghost var s1 := Look(slots, id);
      var acknowledged := answer == Some(true);
      BeginCall(me, id, fx, nowMs);
      ghost var s2 := Look(slots, id);
      EndCall(me, id, fx, claimed + 1, acknowledged, nowMs);
      SeenGrows(s1, s2, current);
      SeenGrows(s2, Look(slots, id), current);
      r := RecordCancelAnswer(me, id, current, claimed + 1, caller, nowMs, acknowledged, faults.atSettle);
    }

    method RecordCancelAnswer(me: Pid, id: string, current: Record<Task>, inflight: nat, caller: Caller, nowMs: int,
            acknowledged: bool, fault: bool)
      returns (r: Reply<()>)
      requires Valid() && SlotInv(id, Look(slots, id)) && Seen(Look(slots, id), current)
               && current.value.status == Cancelled
      requires MyCall(me, Look(slots, id), CancelFx(id), inflight)
      requires acknowledged ==> Look(slots, id).cells[CancelFx(id)].acks > 0
      modifies this
      ensures Valid() && Seen(Look(slots, id), current)
      ensures acknowledged && r.Ok? ==> (Look(slots, id).task.value.value.upstreamCancelled <==> !fault)
      ensures acknowledged && fault ==> Unrecorded(me, id, Look(slots, id))
      ensures !acknowledged || fault ==> r.Ok?
      ensures !r.Ok? ==> MarkingFailed(r, Look(slots, id), id, caller, nowMs)
      ensures CallsBegun(Look(old(slots), id), CancelFx(id)) <= CallsBegun(Look(slots, id), CancelFx(id))
    {
      hide SlotInv, KeyInv, Fx.Rely;
      var fx := CancelFx(id);
      ghost var s0 := Look(slots, id);
      Interfere(me, id);
      MyCallStays(me, s0, Look(slots, id), fx, inflight);
      AcksStay(me, s0, Look(slots, id), fx);
      CallsStay(me, s0, Look(slots, id), fx);
      SeenStays(me, s0, Look(slots, id), current);
      if fault {
        if acknowledged { UnrecordedIsUnflagged(me, id, Look(slots, id)); }
        return Ok(());
      }
      if !acknowledged {
        var _ := TransitionEffect(me, id, fx, inflight, Settle(Uncertain, None), nowMs);
        return Ok(());
      }
      var receipt := Some(Note("provider-cancel-acknowledged"));
      assert receipt != NOT_ACKNOWLEDGED by { assert |receipt.value.text| != |NOT_ACKNOWLEDGED.value.text|; }
      var written := TransitionEffect(me, id, fx, inflight, Settle(Succeeded, receipt), nowMs);
      if !written { return Ok(()); }
      r := MarkCancelled(me, id, current, caller, nowMs);
    }

    method MarkCancelled(me: Pid, id: string, start: Record<Task>, caller: Caller, nowMs: int) returns (r: Reply<()>)
      requires Valid() && SlotInv(id, Look(slots, id)) && Seen(Look(slots, id), start)
               && start.value.status == Cancelled
      requires CancelFx(id) in Look(slots, id).cells && Settled(Look(slots, id).cells[CancelFx(id)])
      modifies this
      ensures Valid() && Seen(Look(slots, id), start)
      ensures r.Ok? ==> Look(slots, id).task.value.value.upstreamCancelled
      ensures !r.Ok? ==> MarkingFailed(r, Look(slots, id), id, caller, nowMs)
      ensures CallsBegun(Look(old(slots), id), CancelFx(id)) <= CallsBegun(Look(slots, id), CancelFx(id))
    {
      hide SlotInv, KeyInv;
      var fx := CancelFx(id);
      for attempt := 0 to 4
        invariant Valid() && SlotInv(id, Look(slots, id)) && Seen(Look(slots, id), start)
        invariant fx in Look(slots, id).cells && Settled(Look(slots, id).cells[fx])
        invariant CallsBegun(Look(old(slots), id), fx) <= CallsBegun(Look(slots, id), fx)
      {
        ghost var s0 := Look(slots, id);
        var read := Read(me, id, caller, nowMs);
        ghost var s1 := Look(slots, id);
        SeenStays(me, s0, s1, start);
        assert Fx.Rely(me, At(s0.cells, fx), At(s1.cells, fx));
        if !read.Ok? {
          return if read.Unavailable? then Unavailable else InvalidInput;
        }
        if read.value.value.upstreamCancelled { return Ok(()); }
        var next := read.value.value.(upstreamCancelled := true, updatedAt := nowMs);
        Interfere(me, id);
        ghost var s2 := Look(slots, id);
        SeenStays(me, s1, s2, start);
        SeenStays(me, s1, s2, read.value);
        assert Fx.Rely(me, At(s1.cells, fx), At(s2.cells, fx));
        var saved := CasTask(me, id, read.value.revision, next, nowMs, MarkUpstreamCancelled);
        SeenGrows(s2, Look(slots, id), start);
        if saved.Updated? { return Ok(()); }
        if saved.Missing? { return Unavailable; }
      }
      r := UpstreamError;
    }
  }
}
