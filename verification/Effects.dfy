/** The effect journal (src/core/durable-effects.ts): a durable record in front of
    every provider call that must not be repeated by accident.

    `Cell` is one journal record together with what has really happened outside: which
    worker's claim it holds, whether that worker is about to call, how many calls are
    open, how many were ever begun and how many were acknowledged. The journal cannot
    see those fields; they are the history the theorems speak of. A worker that
    crashes simply takes no further step. */
module Effects {
  import opened DurableStore

  type Pid = nat

  datatype EffectKind = ProviderTaskCreate | ProviderTaskUpdate | ProviderTaskCancel | PaidUpstreamCall | ArtifactWrite

  datatype EffectStatus = Claimed | Inflight | Succeeded | Uncertain

  /** One member of a JSON object: a key and the text of its value. */
  datatype Entry = Entry(key: string, value: string)

  /** Digests are constructors, so distinct preimages give distinct keys. */
  datatype OperationKey = Named(name: string) | InputEpoch(requests: seq<Entry>, used: seq<string>)

  datatype Receipt = Note(text: string) | ResponseTo(accepted: seq<Entry>)

  const NOT_ACKNOWLEDGED := Some(Note("not-acknowledged"))

  datatype EffectId = EffectId(jobId: string, kind: EffectKind, operationKey: OperationKey)

  datatype Effect = Effect(id: EffectId, status: EffectStatus, claimedAt: int, updatedAt: int, receipt: Option<Receipt>)

  datatype Cell = Cell(record: Record<Effect>, holder: Pid, armed: bool, open: nat, begun: nat, acks: nat) {
    function Effect(): Effect { record.value }
    function Status(): EffectStatus { record.value.status }
  }

  /** An explicitly unacknowledged success is a legacy record, not proof of cancellation. */
  predicate Retryable(e: Effect) {
    e.status == Uncertain || (e.status == Succeeded && e.receipt == NOT_ACKNOWLEDGED)
  }

  /** Succeeded for good: no journal call changes the record again. */
  predicate Settled(c: Cell) {
    c.Status() == Succeeded && !(c.Effect().id.kind == ProviderTaskCancel && c.Effect().receipt == NOT_ACKNOWLEDGED)
  }

  // ------------------------------------------------------------------ atomic steps

  /** What a worker can do to one effect in one step: the journal writes, and the
      beginning and end of the provider call itself. */
  datatype CellAction =
    | Claim
    | Arm                                                     // claimed -> inflight
    | Begin                                                   // the provider call starts
    | End(acked: bool)                                        // it returns; acked: with a positive answer
    | Settle(status: EffectStatus, receipt: Option<Receipt>)  // inflight -> succeeded or uncertain
    | Resume(evidence: Receipt)                               // another worker found durable proof of the call
    | Retry                                                   // uncertain cancellation claimed again

  predicate Enabled(p: Pid, id: EffectId, c: Option<Cell>, a: CellAction) {
    match a
    case Claim => c.None?
    case Arm => c.Some? && c.value.holder == p && c.value.Status() == Claimed
    case Begin => c.Some? && c.value.holder == p && c.value.armed
    case End(_) => c.Some? && c.value.holder == p && c.value.open > 0
    case Settle(status, receipt) =>
      && c.Some? && c.value.holder == p && c.value.Status() == Inflight && c.value.open == 0
      && (status == Uncertain ||
          (status == Succeeded && receipt.Some? && c.value.begun > 0 && !c.value.armed &&
           (id.kind == ProviderTaskCancel && receipt != NOT_ACKNOWLEDGED ==> c.value.acks > 0)))
    case Resume(_) =>
      && c.Some? && id.kind != ProviderTaskCancel
      && c.value.Status() != Succeeded && c.value.begun > 0
    case Retry => c.Some? && id.kind == ProviderTaskCancel && Retryable(c.value.Effect())
  }

  function Rewrite(r: Record<Effect>, status: EffectStatus, receipt: Option<Receipt>, nowMs: int): Record<Effect> {
    Bump(r, r.value.(status := status, updatedAt := nowMs, receipt := receipt), nowMs, None)
  }

  function Next(p: Pid, id: EffectId, c: Option<Cell>, a: CellAction, nowMs: int): Cell
    requires Enabled(p, id, c, a)
  {
    match a
    case Claim => Cell(Fresh(Effect(id, Claimed, nowMs, nowMs, None), nowMs, None), p, false, 0, 0, 0)
    case Arm => c.value.(record := Rewrite(c.value.record, Inflight, None, nowMs), armed := true)
    case Begin => c.value.(armed := false, open := c.value.open + 1, begun := c.value.begun + 1)
    case End(acked) => c.value.(open := c.value.open - 1, acks := c.value.acks + if acked then 1 else 0)
    case Settle(status, receipt) =>
      c.value.(record := Rewrite(c.value.record, status, receipt, nowMs), armed := false)
    case Resume(receipt) => c.value.(record := Rewrite(c.value.record, Succeeded, Some(receipt), nowMs))
    case Retry => c.value.(record := Rewrite(c.value.record, Claimed, None, nowMs), holder := p)
  }

  ghost predicate Inv(id: EffectId, c: Cell) {
    && c.record.revision >= 1 && c.Effect().id == id && (c.Status() == Succeeded ==> c.Effect().receipt.Some?)
    && (c.armed ==> c.Status() == Inflight && c.open == 0)
    && c.open <= 1
    && (c.open == 1 ==>
          !c.armed && (c.Status() == Inflight || (c.Status() == Succeeded && id.kind != ProviderTaskCancel)))
    && (id.kind != ProviderTaskCancel ==>
          c.begun + (if c.armed then 1 else 0) + (if c.Status() == Claimed then 1 else 0) <= 1)
    && (Settled(c) ==> c.begun > 0 && (id.kind == ProviderTaskCancel ==> c.acks > 0))
    && c.acks <= c.begun && (c.open == 1 ==> c.acks < c.begun)
  }

  ghost predicate InvAt(id: EffectId, c: Option<Cell>) { c.Some? ==> Inv(id, c.value) }

  lemma StepKeepsInv(p: Pid, id: EffectId, c: Option<Cell>, a: CellAction, nowMs: int)
    requires InvAt(id, c) && Enabled(p, id, c, a)
    ensures Inv(id, Next(p, id, c, a, nowMs))
  {
    match a
    case Retry => assert id.kind == ProviderTaskCancel;
    case _ =>
  }

  /** A settled effect keeps its receipt and its number of calls; a call that was still
      open when another worker settled it may still return. */
  predicate SameReceipt(x: Cell, y: Cell) {
    y.record == x.record && y.holder == x.holder && y.begun == x.begun && (x.open == 0 ==> y == x)
  }

  /** What worker `me` can rely on while others run: the record is revision-fenced, a
      settled effect is frozen, a live claim of mine is untouched, nobody claims in my
      name, and a call that must not be repeated is not. */
  ghost predicate Rely(me: Pid, c: Option<Cell>, c': Option<Cell>) {
    && (c.None? && c'.Some? ==> c'.value.holder != me)
    && (c.Some? ==>
      && c'.Some?
      && var x, y := c.value, c'.value;
      && y.Effect().id == x.Effect().id && y.Effect().claimedAt == x.Effect().claimedAt
      && x.record.revision <= y.record.revision
      && (x.record.revision == y.record.revision ==> x.record == y.record)
      && x.begun <= y.begun && x.acks <= y.acks
      && (Settled(x) ==> SameReceipt(x, y))
      && (x.holder == me && (x.Status() == Claimed || x.armed) ==> y == x)
      && (x.holder == me && x.Status() == Inflight ==>
            y == x || (Settled(y) && y.begun > 0 && y.Effect().id.kind != ProviderTaskCancel))
      && (x.holder == me && x.open > 0 ==> y.holder == me && y.open == x.open && y.begun == x.begun)
      && (x.Effect().id.kind != ProviderTaskCancel ==> y.holder == x.holder)
      && (x.Effect().id.kind != ProviderTaskCancel && x.begun > 0 && x.open == 0 ==>
            y.begun == x.begun && y.open == 0 && y.acks == x.acks)
      && (y.holder == me ==> x.holder == me))
  }

  lemma OthersKeepRely(p: Pid, me: Pid, id: EffectId, c: Option<Cell>, a: CellAction, nowMs: int)
    requires p != me && InvAt(id, c) && Enabled(p, id, c, a)
    ensures Rely(me, c, Some(Next(p, id, c, a, nowMs)))
  {
  }

  lemma RelyReflexive(me: Pid, c: Option<Cell>)
    ensures Rely(me, c, c)
  {
  }

  lemma RelyTransitive(me: Pid, id: EffectId, a: Option<Cell>, b: Option<Cell>, c: Option<Cell>)
    requires InvAt(id, a) && InvAt(id, b) && InvAt(id, c) && Rely(me, a, b) && Rely(me, b, c)
    ensures Rely(me, a, c)
  {
  }

  // ------------------------------------------------------------------ whole runs

  /** A schedule names who tries what, in order; a step that is not enabled is skipped. */
  datatype Event = Event(pid: Pid, id: EffectId, action: CellAction, nowMs: int)

  type Journal = map<EffectId, Cell>

  function At(j: Journal, id: EffectId): Option<Cell> { if id in j then Some(j[id]) else None }

  function Perform(j: Journal, e: Event): Journal {
    if Enabled(e.pid, e.id, At(j, e.id), e.action)
    then j[e.id := Next(e.pid, e.id, At(j, e.id), e.action, e.nowMs)] else j
  }

  function Execute(j: Journal, schedule: seq<Event>): Journal
    decreases |schedule|
  {
    if schedule == [] then j else Execute(Perform(j, schedule[0]), schedule[1..])
  }

  ghost predicate JournalInv(j: Journal) { forall id | id in j :: Inv(id, j[id]) }

  lemma {:induction false} ExecuteKeepsInv(j: Journal, schedule: seq<Event>)
    requires JournalInv(j)
    ensures JournalInv(Execute(j, schedule))
    decreases |schedule|
  {
    if schedule != [] {
      var e := schedule[0];
      if Enabled(e.pid, e.id, At(j, e.id), e.action) {
        StepKeepsInv(e.pid, e.id, At(j, e.id), e.action, e.nowMs);
      }
      ExecuteKeepsInv(Perform(j, e), schedule[1..]);
    }
  }

  lemma PerformIsRely(me: Pid, j: Journal, e: Event, id: EffectId)
    requires JournalInv(j) && e.pid != me
    ensures JournalInv(Perform(j, e)) && Rely(me, At(j, id), At(Perform(j, e), id))
  {
    if Enabled(e.pid, e.id, At(j, e.id), e.action) {
      StepKeepsInv(e.pid, e.id, At(j, e.id), e.action, e.nowMs);
      OthersKeepRely(e.pid, me, e.id, At(j, e.id), e.action, e.nowMs);
    }
  }

  /** Any number of steps by other workers amounts to `Rely`. */
  lemma {:induction false} OthersRunIsRely(me: Pid, j: Journal, schedule: seq<Event>, id: EffectId)
    requires JournalInv(j) && forall i | 0 <= i < |schedule| :: schedule[i].pid != me
    ensures JournalInv(Execute(j, schedule)) && Rely(me, At(j, id), At(Execute(j, schedule), id))
    decreases |schedule|
  {
    if schedule != [] {
      PerformIsRely(me, j, schedule[0], id);
      OthersRunIsRely(me, Perform(j, schedule[0]), schedule[1..], id);
      RelyTransitive(me, id, At(j, id), At(Perform(j, schedule[0]), id), At(Execute(j, schedule), id));
    }
  }

  lemma ComposeRely(me: Pid, j: Journal, k: Journal, l: Journal)
    requires JournalInv(j) && JournalInv(k) && JournalInv(l)
    requires forall id :: Rely(me, At(j, id), At(k, id))
    requires forall id :: Rely(me, At(k, id), At(l, id))
    ensures forall id :: Rely(me, At(j, id), At(l, id))
  {
    forall id ensures Rely(me, At(j, id), At(l, id)) {
      RelyTransitive(me, id, At(j, id), At(k, id), At(l, id));
    }
  }

  /** At most once: in every interleaving, with any crashes, restarts and retries, the
      call behind an effect that is not a cancellation begins at most once. */
  lemma AtMostOneCall(schedule: seq<Event>, id: EffectId)
    requires id.kind != ProviderTaskCancel && id in Execute(map[], schedule)
    ensures Execute(map[], schedule)[id].begun <= 1
  {
    ExecuteKeepsInv(map[], schedule);
  }

  /** Calls behind one effect never overlap, cancellations included. */
  lemma CallsNeverOverlap(schedule: seq<Event>, id: EffectId)
    requires id in Execute(map[], schedule)
    ensures Execute(map[], schedule)[id].open <= 1
  {
    ExecuteKeepsInv(map[], schedule);
  }

  lemma {:induction false} SettledIsFrozen(j: Journal, schedule: seq<Event>, id: EffectId)
    requires JournalInv(j) && id in j && Settled(j[id])
    ensures id in Execute(j, schedule) && SameReceipt(j[id], Execute(j, schedule)[id])
    decreases |schedule|
  {
    if schedule != [] {
      var e := schedule[0];
      assert id in Perform(j, e) && SameReceipt(j[id], Perform(j, e)[id]);
      ExecuteKeepsInv(j, [e]);
      assert Execute(j, [e]) == Perform(j, e);
      SettledIsFrozen(Perform(j, e), schedule[1..], id);
    }
  }

  /** A recorded success really was a call, a recorded cancellation really was
      acknowledged and is over, and no call starts once either is recorded. */
  lemma NoCallAfterSuccess(before: seq<Event>, after: seq<Event>, id: EffectId)
    requires id in Execute(map[], before) && Settled(Execute(map[], before)[id])
    ensures var j := Execute(map[], before);
            && j[id].begun > 0 && (id.kind == ProviderTaskCancel ==> j[id].open == 0 && j[id].acks > 0)
            && id in Execute(j, after) && SameReceipt(j[id], Execute(j, after)[id])
  {
    ExecuteKeepsInv(map[], before);
    SettledIsFrozen(Execute(map[], before), after, id);
  }

  // ------------------------------------------------------------------ the journal object

  datatype ClaimResult = ClaimGranted(effect: Effect, revision: nat) | ClaimExisting(effect: Effect, revision: nat)
  datatype RetryResult = RetryGranted(effect: Effect, revision: nat) | RetryBlocked(effect: Effect, revision: nat)
  datatype TransitionResult = Written(effect: Effect, revision: nat) | TransitionThrew
  datatype RetryOutcome = Retried(result: RetryResult) | RetryThrew

  /** The step a transition to this status with this receipt is meant to be. */
  predicate Writes(a: CellAction, status: EffectStatus, receipt: Option<Receipt>) {
    || (a == Arm && status == Inflight && receipt == None)
    || (a == Settle(status, receipt) && status != Inflight)
    || (a.Resume? && status == Succeeded && receipt == Some(a.evidence))
  }

  lemma RecordUnderRely(me: Pid, j: Journal, k: Journal, id: EffectId)
    requires Rely(me, At(j, id), At(k, id)) && id in j
    ensures id in k && k[id].Effect().id == j[id].Effect().id && k[id].Effect().claimedAt == j[id].Effect().claimedAt
    ensures j[id].record.revision <= k[id].record.revision
    ensures j[id].record.revision == k[id].record.revision ==> k[id].record == j[id].record
  {
  }

  lemma EntitledWrite(me: Pid, id: EffectId, j: Journal, a: CellAction, status: EffectStatus, receipt: Option<Receipt>,
          nowMs: int)
    requires JournalInv(j) && Writes(a, status, receipt) && Enabled(me, id, At(j, id), a)
    ensures var written := j[id].(record := Rewrite(j[id].record, status, receipt, nowMs), armed := status == Inflight);
            && JournalInv(j[id := written]) && written.record == Next(me, id, At(j, id), a, nowMs).record
            && (!a.Resume? ==> written == Next(me, id, At(j, id), a, nowMs))
  {
    StepKeepsInv(me, id, At(j, id), a, nowMs);
  }

  /** `DurableEffectJournal`, run by worker `me` among others. Every store call is
      preceded by whatever the other workers do (`Interfere`). */
  class DurableEffectJournal {
    var cells: Journal

    constructor()
      ensures cells == map[] && JournalInv(cells)
    {
      cells := map[];
    }

    /** Any number of steps of the other workers: callers learn no more than this. */
    method Interfere(me: Pid)
      requires JournalInv(cells)
      modifies this
      ensures JournalInv(cells)
      ensures forall id :: Rely(me, At(old(cells), id), At(cells, id))
    {
    }

    /** One enabled step of `me`. */
    method Step(me: Pid, id: EffectId, a: CellAction, nowMs: int)
      requires JournalInv(cells) && Enabled(me, id, At(cells, id), a)
      modifies this
      ensures JournalInv(cells)
      ensures cells == Perform(old(cells), Event(me, id, a, nowMs))
      ensures id in cells && cells[id] == Next(me, id, At(old(cells), id), a, nowMs)
    {
      StepKeepsInv(me, id, At(cells, id), a, nowMs);
      cells := cells[id := Next(me, id, At(cells, id), a, nowMs)];
    }

    /** Only the worker that created the record is told the claim is its own. */
    method ClaimEffect(me: Pid, id: EffectId, nowMs: int) returns (r: ClaimResult)
      requires JournalInv(cells)
      modifies this
      ensures JournalInv(cells) && id in cells
      ensures r.effect == cells[id].Effect() && r.revision == cells[id].record.revision
      ensures r.ClaimGranted? ==> id !in old(cells) && cells[id] == Next(me, id, None, Claim, nowMs)
      ensures r.ClaimExisting? ==> forall i :: Rely(me, At(old(cells), i), At(cells, i))
    {
      Interfere(me);
      if id in cells {
        r := ClaimExisting(cells[id].Effect(), cells[id].record.revision);
      } else {
        var effect := Effect(id, Claimed, nowMs, nowMs, None);
        Step(me, id, Claim, nowMs);
        r := ClaimGranted(effect, cells[id].record.revision);
      }
    }

    /** The source reads the record, refuses to leave `succeeded`, and then swaps on the
        caller's revision, `found` being the journal at the swap. Whoever calls, a write
        replaces the record of that revision. For a worker entitled to step `a` it is that
        step and no other; with nothing written, only others moved. */
    method Transition(me: Pid, id: EffectId, expected: nat, status: EffectStatus, nowMs: int, receipt: Option<Receipt>,
            ghost a: CellAction)
      returns (r: TransitionResult, ghost found: Journal)
      requires JournalInv(cells) && status != Claimed
      modifies this
      ensures JournalInv(found) && forall i :: Rely(me, At(old(cells), i), At(found, i))
      ensures r.Written? ==>
                && id in found && found[id].record.revision == expected && r.revision == expected + 1
                && id in cells && cells == found[id := cells[id]]
                && cells[id].record == Rewrite(found[id].record, status, receipt, nowMs)
                && r.effect == cells[id].Effect()
      ensures r.Written? && Writes(a, status, receipt) && Enabled(me, id, At(found, id), a) ==>
                && JournalInv(cells) && cells[id].record == Next(me, id, At(found, id), a, nowMs).record
                && (!a.Resume? ==> cells[id] == Next(me, id, At(found, id), a, nowMs))
      ensures r.TransitionThrew? ==> cells == found
      ensures r.TransitionThrew? && id in old(cells) && expected <= old(cells[id].record.revision) ==>
                id in cells
                  && (cells[id].record.revision > expected || (cells[id].Status() == Succeeded && status != Succeeded))
    {
      hide Rely, JournalInv, Enabled, Next;
      Interfere(me);
      found := cells;
      if id in old(cells) { RecordUnderRely(me, old(cells), found, id); }
      if id !in cells { return TransitionThrew, found; }
      var previous := cells[id].Effect();
      if previous.status == Succeeded && status != Succeeded { return TransitionThrew, found; }
      ghost var read := cells;
      Interfere(me);
      found := cells;
      ComposeRely(me, old(cells), read, cells);
      RecordUnderRely(me, read, found, id);
      var next := previous.(status := status, updatedAt := nowMs, receipt := receipt);
      if cells[id].record.revision != expected { return TransitionThrew, found; }
      var swapped := cells[id].(record := Bump(cells[id].record, next, nowMs, None), armed := status == Inflight);
      cells := cells[id := swapped];
      r := Written(next, expected + 1);
      if Writes(a, status, receipt) && Enabled(me, id, At(found, id), a) {
        EntitledWrite(me, id, found, a, status, receipt, nowMs);
      }
    }

    /** Only an unacknowledged or uncertain cancellation is claimed again, and only by
        the worker that wins the swap on the revision it saw. */
    method RetryEffect(me: Pid, id: EffectId, expected: nat, nowMs: int) returns (r: RetryOutcome)
      requires JournalInv(cells) && id in cells && expected <= cells[id].record.revision
      modifies this
      ensures JournalInv(cells) && id in cells
      ensures id.kind != ProviderTaskCancel <==> r.RetryThrew?
      ensures r.Retried? ==> r.result.effect == cells[id].Effect() || r.result.RetryBlocked?
      ensures r.Retried? && r.result.RetryGranted? ==>
                && old(cells[id].record.revision) == expected && Retryable(old(cells[id].Effect()))
                && cells[id].holder == me && cells[id].Status() == Claimed && cells[id].open == 0
                && r.result.revision == cells[id].record.revision == expected + 1
      ensures r.RetryThrew? || r.result.RetryBlocked? ==> forall i :: Rely(me, At(old(cells), i), At(cells, i))
    {
      if id.kind != ProviderTaskCancel {
        return RetryThrew;
      }
      Interfere(me);
      assert Rely(me, At(old(cells), id), At(cells, id));
      var current := cells[id].record;
      if current.revision != expected || !Retryable(current.value) {
        return Retried(RetryBlocked(current.value, current.revision));
      }
      ghost var read := cells;
      Interfere(me);
      ComposeRely(me, old(cells), read, cells);
      assert Rely(me, At(old(cells), id), At(cells, id)) && Rely(me, At(read, id), At(cells, id));
      if cells[id].record.revision != expected {
        return Retried(RetryBlocked(cells[id].Effect(), cells[id].record.revision));
      }
      Step(me, id, Retry, nowMs);
      r := Retried(RetryGranted(cells[id].Effect(), cells[id].record.revision));
    }
  }
}
