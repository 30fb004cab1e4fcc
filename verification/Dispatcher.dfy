/** `DocumentAsyncDispatcher` (src/core/document-async-dispatcher.ts): a durable schedule
    of jobs to attempt, worked by any number of drains through leases on a record's
    revision. A record's expiry is its next eligibility, not its deletion. */
module Dispatcher {
  import opened Basics
  import opened DurableStore
  import Fx = Effects
  import J = DocumentJobs
  import Jobs = DocumentJobRepository
  import Runtime = DocumentAsyncRuntime

  type Pid = nat
  type Caller = Jobs.Caller

  datatype Phase = Scheduled | Leased | Idle

  datatype Entry = Entry(jobId: string, caller: Caller, phase: Phase, token: string, failures: nat)

  /** What `runtime.status` says of a job after an attempt. */
  datatype JobState = Live | Completed | OtherwiseTerminal

  datatype Disposition = Disposition(state: JobState, expiresAt: int, resultCleanupPending: bool,
                                     upstreamRequested: bool, upstreamAcknowledged: bool)

  datatype Outcome = Threw | Disposed(disposition: Disposition)

  /** The validated options of the constructor. */
  datatype Config = Config(attemptTimeoutMs: int, leaseMs: int, pollIntervalMs: int, maxBackoffMs: int)

  predicate ValidConfig(c: Config) {
    && 1 <= c.attemptTimeoutMs <= 120000 && c.attemptTimeoutMs + 1 <= c.leaseMs <= 300000
    && 1 <= c.pollIntervalMs <= 3600000 && c.pollIntervalMs <= c.maxBackoffMs <= 3600000
  }

  function Given(option: Option<int>, default: int): int { if option.Some? then option.value else default }

  // ------------------------------------------------------------------ when to try again

  function Power2(n: nat): nat { if n == 0 then 1 else 2 * Power2(n - 1) }

  function Backoff(c: Config, failures: nat): int
    requires failures >= 1
  {
    Min(c.maxBackoffMs, c.pollIntervalMs * Power2(failures - 1))
  }

  predicate Pending(d: Disposition) { d.resultCleanupPending || (d.upstreamRequested && !d.upstreamAcknowledged) }

  /** Nothing left to drive: over, nothing pending, and no completed output still to expire. */
  predicate Finished(d: Disposition, at: int) {
    d.state != Live && !Pending(d) && (d.state == Completed ==> d.expiresAt <= at)
  }

  function Failures(e: Entry, o: Outcome): nat { if o.Threw? then Min(30, e.failures + 1) else 0 }

  /** `judged` is the clock where the outcome was judged; None means idle. */
  function NextAttempt(c: Config, e: Entry, o: Outcome, now: int, judged: int): Option<int> {
    var at := Max(now, judged);
    match o
    case Threw => Some(at + Backoff(c, Failures(e, o)))
    case Disposed(d) =>
      if d.state == Live || Pending(d) then Some(at + c.pollIntervalMs)
      else if d.state == Completed && d.expiresAt > at then Some(d.expiresAt)
      else None
  }

  function Eligibility(next: Option<int>, finishedAt: int): Option<int> {
    if next.None? then None else Some(Max(next.value, finishedAt + 1))
  }

  lemma {:induction false} Power2Grows(m: nat, n: nat)
    requires m <= n
    ensures 1 <= Power2(m) <= Power2(n)
  {
    if m < n { Power2Grows(m, n - 1); } else if m > 0 { Power2Grows(m - 1, n - 1); }
  }

  /** Backoff starts at the poll interval, never shrinks as failures mount, and is capped. */
  lemma BackoffBounds(c: Config, f: nat, g: nat)
    requires ValidConfig(c) && 1 <= f <= g
    ensures Backoff(c, 1) == c.pollIntervalMs
    ensures c.pollIntervalMs <= Backoff(c, f) <= Backoff(c, g) <= c.maxBackoffMs
  {
    Power2Grows(f - 1, g - 1);
    assert Power2(0) == 1;
    assert c.pollIntervalMs * 1 <= c.pollIntervalMs * Power2(f - 1) <= c.pollIntervalMs * Power2(g - 1) by {
      MultiplyKeepsOrder(c.pollIntervalMs, 1, Power2(f - 1));
      MultiplyKeepsOrder(c.pollIntervalMs, Power2(f - 1), Power2(g - 1));
    }
  }

  lemma MultiplyKeepsOrder(k: int, a: int, b: int)
    requires k >= 0 && a <= b
    ensures k * a <= k * b
  {
    assert k * b - k * a == k * (b - a);
  }

  lemma DoubledProduct(k: int, a: int)
    ensures k * (2 * a) == 2 * (k * a)
  {
  }

  /** The delays the source promises: the poll interval, then twice the last one, up to the
      cap. */
  function Delay(c: Config, n: nat): int
    requires n >= 1
  {
    if n == 1 then c.pollIntervalMs else Min(c.maxBackoffMs, 2 * Delay(c, n - 1))
  }

  lemma {:induction false} DelayIsCappedPower(c: Config, n: nat)
    requires ValidConfig(c) && n >= 1
    ensures Delay(c, n) == Min(c.maxBackoffMs, c.pollIntervalMs * Power2(n - 1))
  {
    if n > 1 {
      DelayIsCappedPower(c, n - 1);
      assert Power2(n - 1) == 2 * Power2(n - 2);
      DoubledProduct(c.pollIntervalMs, Power2(n - 2));
    }
  }

  /** Counting no further than thirty failures does not show: the cap is reached before. */
  lemma BackoffIsDelay(c: Config, n: nat)
    requires ValidConfig(c) && n >= 1
    ensures Backoff(c, Min(30, n)) == Delay(c, n)
  {
    DelayIsCappedPower(c, n);
    if n > 30 {
      PowerOverCap(c, 29);
      PowerOverCap(c, n - 1);
    }
  }

  lemma {:induction false} Power2Splits(m: nat, n: nat)
    ensures Power2(m + n) == Power2(m) * Power2(n)
  {
    if n > 0 { Power2Splits(m, n - 1); }
  }

  lemma PowerOverCap(c: Config, n: nat)
    requires ValidConfig(c) && n >= 29
    ensures c.pollIntervalMs * Power2(n) >= c.maxBackoffMs
  {
    assert Power2(11) == 2048;
    Power2Splits(11, 11);
    Power2Grows(22, n);
    assert c.pollIntervalMs * Power2(n) >= Power2(n) by { MultiplyKeepsOrder(Power2(n), 1, c.pollIntervalMs); }
  }

  /** After an attempt: idle exactly when the job is finished; otherwise the next attempt
      is strictly later than now, within the backoff cap or the poll interval, and a
      completed job is revisited when its output expires and not before. */
  lemma AttemptsAreSpaced(c: Config, e: Entry, o: Outcome, now: int, judged: int, finishedAt: int)
    requires ValidConfig(c) && now <= finishedAt
    ensures var next := Eligibility(NextAttempt(c, e, o, now, judged), finishedAt);
            var latest := Max(Max(now, judged), finishedAt);
            && (next.None? <==> o.Disposed? && Finished(o.disposition, Max(now, judged)))
            && (next.Some? ==> finishedAt < next.value)
            && (o.Threw? ==> now + c.pollIntervalMs <= next.value <= latest + c.maxBackoffMs)
            && (next.Some? && o.Disposed? && (o.disposition.state == Live || Pending(o.disposition)) ==>
                  now + c.pollIntervalMs <= next.value <= latest + c.pollIntervalMs)
            && (next.Some? && o.Disposed? && o.disposition.state == Completed && !Pending(o.disposition) ==>
                  o.disposition.expiresAt <= next.value <= Max(o.disposition.expiresAt, finishedAt + 1))
  {
    if o.Threw? { BackoffBounds(c, Failures(e, o), Failures(e, o)); }
  }

  // ------------------------------------------------------------------ one entry and its history

  /** `leases` and `finished` name, by lease revision, who held it and who completed it;
      `settled` is the disposition behind the last idle write. */
  datatype Slot = Slot(record: Option<Record<Entry>>, leases: map<nat, Pid>, finished: map<nat, Pid>,
                       settled: Option<(Disposition, int)>)

  const EMPTY := Slot(None, map[], map[], None)

  datatype Action =
    | Schedule(entry: Entry, at: int)
    | Wake(wakeAt: int)
    | Lease(token: string)
    | Finish(outcome: Outcome, judged: int, finishedAt: int)

  /** `scanExpired` finds exactly these. */
  predicate Due(r: Record<Entry>, now: int) { r.expiresAt.Some? && r.expiresAt.value <= now }

  predicate LeftAlone(r: Record<Entry>, at: int) {
    r.value.phase == Leased || (r.value.phase == Scheduled && r.expiresAt.Some? && r.expiresAt.value <= at)
  }

  function Woken(e: Entry): Entry { Entry(e.jobId, e.caller, Scheduled, "", 0) }

  predicate Enabled(p: Pid, id: string, s: Slot, a: Action, now: int) {
    match a
    case Schedule(e, at) => s.record.None? && e.jobId == id && e == Woken(e) && at > now
    case Wake(at) => s.record.Some? && !LeftAlone(s.record.value, at)
    case Lease(_) => s.record.Some? && s.record.value.value.phase != Idle && Due(s.record.value, now)
    case Finish(_, _, finishedAt) =>
      && s.record.Some? && s.record.value.value.phase == Leased
      && s.record.value.revision in s.leases && s.leases[s.record.value.revision] == p
  }

  function Next(c: Config, p: Pid, id: string, s: Slot, a: Action, now: int): Slot
    requires Enabled(p, id, s, a, now)
  {
    match a
    case Schedule(e, at) => s.(record := Some(Fresh(e, now, Some(at))))
    case Wake(at) => s.(record := Some(Bump(s.record.value, Woken(s.record.value.value), now, Some(at))))
    case Lease(token) =>
      var r := s.record.value;
      s.(record := Some(Bump(r, r.value.(phase := Leased, token := token), now, Some(now + c.leaseMs))),
         leases := s.leases[r.revision + 1 := p])
    case Finish(o, judged, finishedAt) =>
      var r := s.record.value;
      var next := NextAttempt(c, r.value, o, now, judged);
      var e := r.value.(phase := if next.None? then Idle else Scheduled, token := "", failures := Failures(r.value, o));
      Slot(Some(Bump(r, e, finishedAt, Eligibility(next, finishedAt))), s.leases, s.finished[r.revision := p],
           if next.None? && o.Disposed? then Some((o.disposition, Max(now, judged))) else s.settled)
  }

  ghost predicate SlotInv(id: string, s: Slot) {
    && (s.record.None? ==> s == EMPTY)
    && (s.record.Some? ==>
          var r := s.record.value;
          && r.revision >= 1 && r.value.jobId == id && r.value.failures <= 30
          && (r.value.phase == Idle <==> r.expiresAt.None?)
          && (r.value.phase == Idle ==> s.settled.Some? && Finished(s.settled.value.0, s.settled.value.1))
          && (r.value.phase == Leased ==> r.revision in s.leases && r.revision !in s.finished)
          && (forall v | v in s.leases :: v <= r.revision)
          && (forall v | v in s.finished :: v < r.revision && v in s.leases && s.finished[v] == s.leases[v]))
  }

  /** What never changes back, whoever acts: the job and caller an entry names, who held
      which lease, who completed it, and which record a revision stands for. */
  predicate Grows(s: Slot, s': Slot) {
    && (s.record.Some? ==>
          && s'.record.Some?
          && s.record.value.revision <= s'.record.value.revision
          && (s.record.value.revision == s'.record.value.revision ==> s'.record == s.record)
          && s'.record.value.value.jobId == s.record.value.value.jobId
          && s'.record.value.value.caller == s.record.value.value.caller)
    && (forall v | v in s.leases :: v in s'.leases && s'.leases[v] == s.leases[v])
    && (forall v | v in s.finished :: v in s'.finished && s'.finished[v] == s.finished[v])
  }

  lemma StepKeepsSlotInv(c: Config, p: Pid, id: string, s: Slot, a: Action, now: int)
    requires SlotInv(id, s) && Enabled(p, id, s, a, now)
    ensures SlotInv(id, Next(c, p, id, s, a, now)) && Grows(s, Next(c, p, id, s, a, now))
  {
  }

  /** What worker `me` may rely on: nobody else finishes a lease of mine. */
  ghost predicate SlotRely(me: Pid, s: Slot, s': Slot) {
    && Grows(s, s')
    && (forall v | v in s.leases && s.leases[v] == me :: v in s'.finished <==> v in s.finished)
  }

  lemma OthersStepIsRely(c: Config, me: Pid, p: Pid, id: string, s: Slot, a: Action, now: int)
    requires SlotInv(id, s) && Enabled(p, id, s, a, now) && p != me
    ensures SlotRely(me, s, Next(c, p, id, s, a, now))
  {
  }

  lemma SlotRelyTransitive(me: Pid, a: Slot, b: Slot, c: Slot)
    requires SlotRely(me, a, b) && SlotRely(me, b, c)
    ensures SlotRely(me, a, c)
  {
  }

  // ------------------------------------------------------------------ whole runs

  datatype Event = Event(pid: Pid, action: Action, now: int)

  function Perform(c: Config, id: string, s: Slot, e: Event): Slot {
    if Enabled(e.pid, id, s, e.action, e.now) then Next(c, e.pid, id, s, e.action, e.now) else s
  }

  function Execute(c: Config, id: string, s: Slot, schedule: seq<Event>): Slot
    decreases |schedule|
  {
    if schedule == [] then s else Execute(c, id, Perform(c, id, s, schedule[0]), schedule[1..])
  }

  lemma {:induction false} RunKeepsInv(c: Config, id: string, s: Slot, schedule: seq<Event>)
    requires SlotInv(id, s)
    ensures SlotInv(id, Execute(c, id, s, schedule)) && Grows(s, Execute(c, id, s, schedule))
    decreases |schedule|
  {
    hide SlotInv, Enabled, Next;
    if schedule != [] {
      var e := schedule[0];
      if Enabled(e.pid, id, s, e.action, e.now) { StepKeepsSlotInv(c, e.pid, id, s, e.action, e.now); }
      RunKeepsInv(c, id, Perform(c, id, s, e), schedule[1..]);
    }
  }

  lemma {:induction false} OthersRunIsRely(c: Config, me: Pid, id: string, s: Slot, schedule: seq<Event>)
    requires SlotInv(id, s) && forall i | 0 <= i < |schedule| :: schedule[i].pid != me
    ensures SlotInv(id, Execute(c, id, s, schedule)) && SlotRely(me, s, Execute(c, id, s, schedule))
    decreases |schedule|
  {
    hide SlotInv, Enabled, Next;
    if schedule != [] {
      var e := schedule[0];
      if Enabled(e.pid, id, s, e.action, e.now) {
        StepKeepsSlotInv(c, e.pid, id, s, e.action, e.now);
        OthersStepIsRely(c, me, e.pid, id, s, e.action, e.now);
      }
      OthersRunIsRely(c, me, id, Perform(c, id, s, e), schedule[1..]);
      SlotRelyTransitive(me, s, Perform(c, id, s, e), Execute(c, id, s, schedule));
    }
  }

  /** In every run: idle is exactly "no scan will find it", and it is reached only for a
      job that had ended, with no cleanup and no unacknowledged cancellation outstanding
      and, if completed, with its output expired. Everything else comes due. */
  lemma IdleMeansFinished(c: Config, id: string, schedule: seq<Event>)
    requires Execute(c, id, EMPTY, schedule).record.Some?
    ensures var s := Execute(c, id, EMPTY, schedule); var r := s.record.value;
            && (r.value.phase == Idle <==> forall now :: !Due(r, now))
            && (r.value.phase == Idle ==> s.settled.Some? && Finished(s.settled.value.0, s.settled.value.1))
            && (r.value.phase != Idle ==> r.expiresAt.Some? && forall now | now >= r.expiresAt.value :: Due(r, now))
  {
    RunKeepsInv(c, id, EMPTY, schedule);
    var r := Execute(c, id, EMPTY, schedule).record.value;
    assert r.expiresAt.Some? ==> Due(r, r.expiresAt.value);
  }

  // ------------------------------------------------------------------ failures and leases over whole runs

  /** How many attempts in a row were filed as having thrown, with no other outcome filed
      and no wake-up taking effect since. */
  function ThrownInARow(c: Config, id: string, s: Slot, schedule: seq<Event>, n: nat): nat
    decreases |schedule|
  {
    if schedule == [] then n
    else
      var e := schedule[0];
      var m := if !Enabled(e.pid, id, s, e.action, e.now) || e.action.Lease? then n
               else if e.action.Finish? && e.action.outcome.Threw? then n + 1 else 0;
      ThrownInARow(c, id, Perform(c, id, s, e), schedule[1..], m)
  }

  predicate Carries(s: Slot, n: nat) { s.record.Some? ==> s.record.value.value.failures == Min(30, n) }

  lemma {:induction false} FailuresCount(c: Config, id: string, s: Slot, schedule: seq<Event>, n: nat)
    requires Carries(s, n)
    ensures Carries(Execute(c, id, s, schedule), ThrownInARow(c, id, s, schedule, n))
    decreases |schedule|
  {
    hide NextAttempt, Eligibility;
    if schedule != [] {
      var e := schedule[0];
      var m := if !Enabled(e.pid, id, s, e.action, e.now) || e.action.Lease? then n
               else if e.action.Finish? && e.action.outcome.Threw? then n + 1 else 0;
      FailuresCount(c, id, Perform(c, id, s, e), schedule[1..], m);
    }
  }

  /** In every run an entry carries the number of attempts in a row that threw, up to
      thirty, and the next one that throws puts it off by the poll interval doubled as often
      as there were such attempts before, up to the cap. */
  lemma FailuresMountAndDelaysDouble(c: Config, id: string, schedule: seq<Event>, e: Event)
    requires var s := Execute(c, id, EMPTY, schedule);
             ValidConfig(c) && Enabled(e.pid, id, s, e.action, e.now) && e.action.Finish? && e.action.outcome.Threw?
    ensures var s := Execute(c, id, EMPTY, schedule);
            var n := ThrownInARow(c, id, EMPTY, schedule, 0);
            var r := Perform(c, id, s, e).record.value;
            && s.record.value.value.failures == Min(30, n) && r.value.failures == Min(30, n + 1)
            && r.value.phase == Scheduled
            && r.expiresAt == Some(Max(Max(e.now, e.action.judged) + Delay(c, n + 1), e.action.finishedAt + 1))
            && Delay(c, n + 2) == Min(c.maxBackoffMs, 2 * Delay(c, n + 1)) && Delay(c, 1) == c.pollIntervalMs
  {
    hide Execute, ThrownInARow;
    FailuresCount(c, id, EMPTY, schedule, 0);
    BackoffIsDelay(c, ThrownInARow(c, id, EMPTY, schedule, 0) + 1);
  }

  /** A lease lasts: whatever the others try before its time is up, the entry stays exactly
      as leased, and from then on, not earlier, anybody may lease it anew. */
  lemma LeaseLasts(c: Config, p: Pid, id: string, s: Slot, token: string, now: int, schedule: seq<Event>, q: Pid,
          other: string, at: int)
    requires SlotInv(id, s) && Enabled(p, id, s, Lease(token), now)
    requires forall i | 0 <= i < |schedule| :: schedule[i].pid != p && schedule[i].now < now + c.leaseMs
    ensures var s' := Execute(c, id, Next(c, p, id, s, Lease(token), now), schedule);
            && s' == Next(c, p, id, s, Lease(token), now)
            && (Enabled(q, id, s', Lease(other), at) <==> now + c.leaseMs <= at)
  {
    NothingHappens(c, p, id, Next(c, p, id, s, Lease(token), now), now + c.leaseMs, schedule);
  }

  lemma {:induction false} NothingHappens(c: Config, p: Pid, id: string, s: Slot, end: int, schedule: seq<Event>)
    requires s.record.Some? && s.record.value.value.phase == Leased && s.record.value.expiresAt == Some(end)
    requires s.record.value.revision in s.leases && s.leases[s.record.value.revision] == p
    requires forall i | 0 <= i < |schedule| :: schedule[i].pid != p && schedule[i].now < end
    ensures Execute(c, id, s, schedule) == s
    decreases |schedule|
  {
    if schedule != [] {
      assert schedule[0].pid != p && schedule[0].now < end;
      assert !Enabled(schedule[0].pid, id, s, schedule[0].action, schedule[0].now);
      NothingHappens(c, p, id, s, end, schedule[1..]);
    }
  }

  /** What the dispatcher keeps of a status answer. */
  function DispositionOf(t: Runtime.AsyncStatus, expiresAt: int): Disposition {
    var ending :=
      if t.status == J.Completed then Completed else if J.Terminal(t.status) then OtherwiseTerminal else Live;
    Disposition(ending, expiresAt, t.resultCleanupPending, t.upstreamRequested, t.upstreamAcknowledged)
  }

  /** So an idle entry whose attempt ended in a truthful status answer is one whose job is
      over for good: it had ended when the status was taken, a completed one only past its
      expiry, an upstream cancellation asked for had been acknowledged by the provider, the
      dispatch record that was `read` left no result to clean up, and in every run from there
      on the job stays ended and completes no more. */
  lemma IdleMeansJobOver(c: Config, id: string, schedule: seq<Event>, before: J.Slot, read: J.Slot, job: J.Slot,
          t: Runtime.AsyncStatus, after: seq<J.JobEvent>)
    requires var s := Execute(c, id, EMPTY, schedule);
             && s.record.Some? && s.record.value.value.phase == Idle && J.SlotInv(id, job) && job.job.Some?
             && Runtime.Truthful(id, before, read, job, t)
             && (s.settled.Some? ==> s.settled.value.0 == DispositionOf(t, job.job.value.value.expiresAt))
    ensures var s := Execute(c, id, EMPTY, schedule);
            && s.settled.Some? && J.Terminal(job.job.value.value.status)
            && (job.job.value.value.status == J.Completed ==> job.job.value.value.expiresAt <= s.settled.value.1)
            && read.dispatch.Some? && !J.CleanupDue(job.job.value.value.status, read.dispatch.value.value)
            && (t.upstreamRequested ==>
                  var fx := J.AsyncFx(id, Fx.ProviderTaskCancel); fx in job.cells && job.cells[fx].acks > 0)
    ensures var later := J.ExecuteJob(id, job, after);
            && later.job.Some? && J.Terminal(later.job.value.value.status)
            && (later.job.value.value.status == J.Completed ==> job.job.value.value.status == J.Completed)
  {
    IdleMeansFinished(c, id, schedule);
    J.JobRunKeepsInv(id, job, after);
    hide J.SlotInv, J.ExecuteJob, Execute;
  }

  function Attempts(c: Config, d: Disposition): seq<Event> {
    var e := Entry("j", Jobs.Caller("o", "b"), Scheduled, "", 0);
    [Event(3, Schedule(e, 10), 0), Event(1, Lease("t"), 10), Event(2, Lease("u"), 10 + c.leaseMs),
     Event(2, Finish(Disposed(d), 11 + c.leaseMs, 11 + c.leaseMs), 10 + c.leaseMs)]
  }

  /** That the cleanup is done is not for good. Worker 1 loses its lease inside the artifact
      write, the job is cancelled, worker 2 reads a truthful status with nothing to clean up
      and files the entry as idle; then worker 1 records its result. Now a result is left to
      clean up and no scan will ever find the entry; by `DocumentJobs.StepLeavesResult` that
      last write is the step that did it. */
  lemma LateResultBehindIdleEntry(c: Config, t0: J.Job, d0: J.Dispatch)
    requires ValidConfig(c) && J.InitialJob("j", t0) && t0.expiresAt > 0 && J.InitialDispatch(d0)
    ensures var job := J.ExecuteJob("j", J.Empty(J.ByRuntime), J.CancelledInWrite("j", t0, d0));
            var t := Runtime.AsyncStatus(J.Cancelled, None, true, false, false, false, J.NotRevoked);
            var s := Execute(c, "j", EMPTY, Attempts(c, DispositionOf(t, t0.expiresAt)));
            && Runtime.Truthful("j", job, job, job, t)
            && s.record.Some? && s.record.value.value.phase == Idle && (forall now :: !Due(s.record.value, now))
            && s.settled.Some? && s.settled.value.0 == DispositionOf(t, t0.expiresAt)
            && !J.CleanupOwed(job) && J.CleanupOwed(J.ExecuteJob("j", job, J.LateResult("j")))
  {
    hide J.ExecuteJob, Execute, J.CancelledInWrite, J.LateResult;
    var t := Runtime.AsyncStatus(J.Cancelled, None, true, false, false, false, J.NotRevoked);
    J.CancelledInWriteEnds("j", t0, d0);
    J.LateResultIsOwed("j", t0, d0);
    LostAttemptGoesIdle(c, DispositionOf(t, t0.expiresAt));
  }

  lemma LostAttemptGoesIdle(c: Config, d: Disposition)
    requires ValidConfig(c) && d.state == OtherwiseTerminal && !Pending(d)
    ensures var s := Execute(c, "j", EMPTY, Attempts(c, d));
            && s.record.Some? && s.record.value.value.phase == Idle && s.record.value.expiresAt.None?
            && s.settled.Some? && s.settled.value.0 == d
  {
    hide Execute;
    var e := Attempts(c, d);
    var s1 := Perform(c, "j", EMPTY, e[0]);
    var s2 := Perform(c, "j", s1, e[1]);
    var s3 := Perform(c, "j", s2, e[2]);
    assert s3.record.Some? && s3.record.value.revision == 3 && s3.leases[3] == 2;
    FourEvents(c, EMPTY, e[0], e[1], e[2], e[3]);
  }

  lemma FourEvents(c: Config, s: Slot, e: Event, f: Event, g: Event, h: Event)
    ensures Execute(c, "j", s, [e, f, g, h])
            == Perform(c, "j", Perform(c, "j", Perform(c, "j", Perform(c, "j", s, e), f), g), h)
  {
    hide Perform;
    var s1 := Perform(c, "j", s, e);
    var s2 := Perform(c, "j", s1, f);
    var s3 := Perform(c, "j", s2, g);
    assert [e, f, g, h][1..] == [f, g, h] && [f, g, h][1..] == [g, h] && [g, h][1..] == [h] && [h][1..] == [];
    assert Execute(c, "j", s, [e, f, g, h]) == Execute(c, "j", s1, [f, g, h]) == Execute(c, "j", s2, [g, h]);
    assert Execute(c, "j", s2, [g, h]) == Execute(c, "j", s3, [h]) == Execute(c, "j", Perform(c, "j", s3, h), []);
  }

  /** Only the holder of a lease revision completes it, at most once, and once a later
      revision exists nobody does. */
  lemma OnlyTheHolderCompletes(c: Config, id: string, before: seq<Event>, after: seq<Event>, lease: nat)
    requires lease in Execute(c, id, EMPTY, before).leases
    ensures var s, s' := Execute(c, id, EMPTY, before), Execute(c, id, Execute(c, id, EMPTY, before), after);
            && s.record.Some? && s'.record.Some?
            && lease in s'.leases && s'.leases[lease] == s.leases[lease]
            && (lease in s'.finished ==> s'.finished[lease] == s.leases[lease])
            && (s.record.value.revision > lease && lease !in s.finished ==> lease !in s'.finished)
            && (lease in s'.finished ==> s'.record.value.revision > lease)
  {
    RunKeepsInv(c, id, EMPTY, before);
    RunKeepsInv(c, id, Execute(c, id, EMPTY, before), after);
    LostLeaseStaysLost(c, id, Execute(c, id, EMPTY, before), after, lease);
  }

  lemma {:induction false} LostLeaseStaysLost(c: Config, id: string, s: Slot, schedule: seq<Event>, lease: nat)
    requires SlotInv(id, s) && s.record.Some?
    ensures s.record.value.revision > lease && lease !in s.finished ==> lease !in Execute(c, id, s, schedule).finished
    decreases |schedule|
  {
    if schedule != [] {
      var e := schedule[0];
      if Enabled(e.pid, id, s, e.action, e.now) { StepKeepsSlotInv(c, e.pid, id, s, e.action, e.now); }
      LostLeaseStaysLost(c, id, Perform(c, id, s, e), schedule[1..], lease);
    }
  }

  predicate OnlyWakeups(schedule: seq<Event>) {
    forall i | 0 <= i < |schedule| :: schedule[i].action.Schedule? || schedule[i].action.Wake?
  }

  /** Any number of enqueues, by anyone, never delay an entry and never touch a lease. */
  lemma {:induction false} EnqueueNeverDelaysOrSteals(c: Config, id: string, s: Slot, schedule: seq<Event>)
    requires SlotInv(id, s) && s.record.Some? && OnlyWakeups(schedule)
    ensures var s' := Execute(c, id, s, schedule);
            && s'.record.Some?
            && (s.record.value.value.phase == Leased ==> s' == s)
            && (s.record.value.value.phase == Scheduled ==>
                  && s'.record.value.value.phase == Scheduled && s'.record.value.expiresAt.Some?
                          && s.record.value.expiresAt.Some?
                  && s'.record.value.expiresAt.value <= s.record.value.expiresAt.value)
            && (s'.record.value.value.phase == Idle ==> s' == s)
    decreases |schedule|
  {
    if schedule != [] {
      var e := schedule[0];
      assert e.action.Schedule? || e.action.Wake?;
      if Enabled(e.pid, id, s, e.action, e.now) { StepKeepsSlotInv(c, e.pid, id, s, e.action, e.now); }
      EnqueueNeverDelaysOrSteals(c, id, Perform(c, id, s, e), schedule[1..]);
    }
  }

  /** A wake-up takes effect exactly when the entry is not leased: afterwards it is due
      by the requested time, or it is under a lease taken without knowledge of it. */
  lemma WakeupHoldsUnlessLeased(c: Config, p: Pid, id: string, s: Slot, at: int, now: int)
    requires SlotInv(id, s) && s.record.Some?
    ensures var s' := Perform(c, id, s, Event(p, Wake(at), now));
            && (s'.record.value.value.phase == Scheduled && s'.record.value.expiresAt.value <= at
                <==> s.record.value.value.phase != Leased)
            && (s.record.value.value.phase == Leased ==> s' == s)
  {
  }

  /** So an enqueue during a lease can be lost: the holder, whose attempt read the job
      before the wake-up was requested, still files the entry as idle. */
  lemma WakeupDuringLeaseIsDropped(c: Config)
    requires ValidConfig(c)
    ensures var e := Entry("j", Jobs.Caller("o", "b"), Scheduled, "", 0);
            var done := Disposition(OtherwiseTerminal, 100, false, false, false);
            var leased := Execute(c, "j", EMPTY, [Event(1, Schedule(e, 10), 0), Event(2, Lease("t"), 10)]);
            var woken := Execute(c, "j", leased, [Event(1, Wake(12), 11)]);
            var after := Execute(c, "j", woken, [Event(2, Finish(Disposed(done), 13, 13), 10)]);
            woken == leased && after.record.Some? && after.record.value.value.phase == Idle
  {
    var e := Entry("j", Jobs.Caller("o", "b"), Scheduled, "", 0);
    var done := Disposition(OtherwiseTerminal, 100, false, false, false);
    var a, b := Event(1, Schedule(e, 10), 0), Event(2, Lease("t"), 10);
    assert [a, b][1..] == [b] && [b][1..] == [];
    var leased := Perform(c, "j", Perform(c, "j", EMPTY, a), b);
    assert Execute(c, "j", EMPTY, [a, b]) == Execute(c, "j", Perform(c, "j", EMPTY, a), [b]) == leased;
    assert leased.record.Some? && leased.record.value.value.phase == Leased && leased.leases[2] == 2;
    var w, f := Event(1, Wake(12), 11), Event(2, Finish(Disposed(done), 13, 13), 10);
    assert [w][1..] == [] && [f][1..] == [];
    assert Execute(c, "j", leased, [w]) == Perform(c, "j", leased, w) == leased;
    assert Execute(c, "j", leased, [f]) == Perform(c, "j", leased, f);
  }

  // ------------------------------------------------------------------ the dispatcher object

  /** One record of a scan page, as found; a value that does not parse is garbage. */
  datatype Found = Found(key: string, record: Record<Entry>) | Garbage

  datatype Tally = Tally(claimed: nat, advanced: nat, rescheduled: nat, idle: nat, failed: nat, leaseLost: nat,
      malformed: nat)

  function In(m: map<string, Slot>, id: string): Slot { if id in m then m[id] else EMPTY }

  /** A page is what one scan returned: records as they once were, due at the scan. */
  ghost predicate PageIn(m: map<string, Slot>, page: seq<Found>, now: int) {
    forall i | 0 <= i < |page| && page[i].Found? ::
      page[i].record.value.jobId == page[i].key ==>
        && Due(page[i].record, now) && In(m, page[i].key).record.Some?
        && page[i].record.revision <= In(m, page[i].key).record.value.revision
        && (page[i].record.revision == In(m, page[i].key).record.value.revision ==>
              In(m, page[i].key).record == Some(page[i].record))
  }

  predicate Balanced(t: Tally) {
    t.claimed == t.advanced + t.failed && t.claimed == t.rescheduled + t.idle + t.leaseLost
  }

  class DocumentAsyncDispatcher {
    const config: Config
    var slots: map<string, Slot>
    var clock: int
    var aborted: bool
    var position: nat     // of the drain under way, shared by its consumers
    ghost var readings: seq<int>  // of the clock, by this consumer

    function Look(id: string): Slot reads this { In(slots, id) }

    ghost predicate Valid() reads this { ValidConfig(config) && forall id | id in slots :: SlotInv(id, slots[id]) }

    /** The constructor's bounds: refused exactly when an option that is given is out of
        its range; an option left out takes a default that never is. */
    static method Options(attemptTimeoutMs: Option<int>, leaseMs: Option<int>, pollIntervalMs: Option<int>,
            maxBackoffMs: Option<int>)
      returns (r: Option<Config>)
      ensures r.Some? ==> ValidConfig(r.value)
      ensures r.Some? <==>
                && (attemptTimeoutMs.Some? ==> 1 <= attemptTimeoutMs.value <= 120000)
                && (leaseMs.Some? ==> Given(attemptTimeoutMs, 120000) < leaseMs.value <= 300000)
                && (pollIntervalMs.Some? ==> 1 <= pollIntervalMs.value <= 3600000)
                && (maxBackoffMs.Some? ==> Given(pollIntervalMs, 5000) <= maxBackoffMs.value <= 3600000)
      ensures r.Some? ==>
                && r.value.attemptTimeoutMs == Given(attemptTimeoutMs, 120000)
                && r.value.leaseMs == Given(leaseMs, Given(attemptTimeoutMs, 120000) + 10000)
                && r.value.pollIntervalMs == Given(pollIntervalMs, 5000)
                && r.value.maxBackoffMs == Given(maxBackoffMs, Max(Given(pollIntervalMs, 5000), 300000))
    {
      var attempt := if attemptTimeoutMs.Some? then attemptTimeoutMs.value else 120000;
      var lease := if leaseMs.Some? then leaseMs.value else attempt + 10000;
      var poll := if pollIntervalMs.Some? then pollIntervalMs.value else 5000;
      var backoff := if maxBackoffMs.Some? then maxBackoffMs.value else Max(poll, 300000);
      var c := Config(attempt, lease, poll, backoff);
      r := if ValidConfig(c) then Some(c) else None;
    }

    constructor(config: Config)
      requires ValidConfig(config)
      ensures Valid() && slots == map[] && this.config == config
    {
      this.config := config;
      slots := map[];
      clock := 0;
      aborted := false;
      position := 0;
      readings := [];
    }

    method Now() returns (t: int)
      modifies this`readings
      ensures t == clock && readings == old(readings) + [t]
    {
      t := clock;
      readings := readings + [t];
    }

    method Interfere(me: Pid)
      requires Valid()
      modifies this
      ensures Valid() && position >= old(position) && readings == old(readings)
      ensures forall id :: SlotRely(me, In(old(slots), id), In(slots, id))
    {
    }

    method Step(me: Pid, id: string, a: Action, now: int)
      requires Valid() && Enabled(me, id, Look(id), a, now)
      modifies this`slots
      ensures Valid()
      ensures slots == old(slots)[id := Next(config, me, id, old(Look(id)), a, now)]
      ensures SlotInv(id, Look(id)) && Grows(old(Look(id)), Look(id))
    {
      StepKeepsSlotInv(config, me, id, Look(id), a, now);
      slots := slots[id := Next(config, me, id, Look(id), a, now)];
    }

    /** On return the entry is the caller's own and, unless it is under a lease, is
        eligible by the time asked for. */
    method Enqueue(me: Pid, jobId: string, caller: Caller, nextAttemptAt: Option<int>) returns (ok: bool)
      requires Valid()
      modifies this
      ensures Valid()
      ensures ok ==>
                && Look(jobId).record.Some? && Look(jobId).record.value.value.caller == caller
                && (Look(jobId).record.value.value.phase != Leased ==>
                      && Look(jobId).record.value.value.phase == Scheduled
                      && Look(jobId).record.value.expiresAt.value <= (if nextAttemptAt.Some? then nextAttemptAt.value
                                                                      else old(clock) + 1))
    {
      hide Next;
      var now := clock;
      if now < 0 || now > MAX_SAFE_INTEGER - config.leaseMs { return false; }
      var at := if nextAttemptAt.Some? then nextAttemptAt.value else now + 1;
      if at < now + 1 || at > MAX_SAFE_INTEGER { return false; }
      var entry := Entry(jobId, caller, Scheduled, "", 0);
      if aborted { return false; }
      Interfere(me);
      if Look(jobId).record.None? {
        Step(me, jobId, Schedule(entry, at), now);
        CreatedSlot(config, me, jobId, entry, at, now);
        return true;
      }
      var record := Look(jobId).record.value;
      for attempt := 0 to 8
        invariant Valid() && Look(jobId).record == Some(record)
      {
        if aborted { return false; }
        var existing := record.value;
        if existing.jobId != jobId || existing.caller != caller { return false; }
        if LeftAlone(record, at) {
          LookInv(jobId);
          return true;
        }
        ghost var seen := Look(jobId);
        Interfere(me);
        assert SlotRely(me, seen, Look(jobId));
        if Look(jobId).record.value.revision == record.revision {
          WokenSlot(config, me, jobId, Look(jobId), at, now);
          Step(me, jobId, Wake(at), now);
          return true;
        }
        record := Look(jobId).record.value;
      }
      ok := false;
    }

    lemma LookInv(id: string)
      requires Valid()
      ensures SlotInv(id, Look(id))
    {
    }

    /** One consumer of a drain: it goes through the page from where the drain is, leaving
        out only what others take while it attempts one, and tells of each record `handled`
        how it went. Every record it claims is counted once on either side of the tally. */
    method Consume(me: Pid, page: seq<Found>, now: int, outcomes: seq<Outcome>, tokens: seq<string>)
      returns (t: Tally, ghost handled: seq<Handled>)
      requires Valid() && PageIn(slots, page, now)
      modifies this
      ensures Valid() && Balanced(t) && t.claimed + t.malformed <= |page|
      ensures t == TallyOf(handled, outcomes) && WentThrough(handled, page, old(position), position)
      ensures aborted || position >= |page|
    {
      hide SlotInv, Next, Enabled, Count, PageIn, TallyOf, WentThrough, Malformed;
      t, handled := Tally(0, 0, 0, 0, 0, 0, 0), [];
      NothingHandled(page, position, outcomes);
      while position < |page| && !aborted
        invariant Valid() && PageIn(slots, page, now) && Balanced(t)
        invariant t.claimed + t.malformed <= position && t.claimed + t.malformed <= |page|
        invariant t == TallyOf(handled, outcomes) && WentThrough(handled, page, old(position), position)
        decreases |page| - position
      {
        var found := page[position];
        var outcome := OutcomeAt(outcomes, position);
        var token := if position < |tokens| then tokens[position] else "";
        ghost var before, at := handled, position;
        position := position + 1;
        if Malformed(found) {
          t := t.(malformed := t.malformed + 1);
          handled := handled + [Rejected(at)];
        } else {
          WellFormedIs(found);
          var result, _, _ := Attempt(me, page, found.key, found.record, now, token, outcome);
          CountKeepsBalance(t, result, outcome);
          t := Count(t, result, outcome);
          handled := handled + [Tried(at, result)];
        }
        WentOn(before, page, old(position), at, handled[|before|], position, outcomes);
      }
    }

    /** Lease, attempt, file the outcome. */
    method Attempt(me: Pid, ghost page: seq<Found>, id: string, record: Record<Entry>, now: int, token: string,
            outcome: Outcome)
      returns (r: Attempted, judged: int, finishedAt: int)
      requires Valid() && PageIn(slots, page, now) && Found(id, record) in page && record.value.jobId == id
              && record.value.phase != Idle
      modifies this
      ensures Valid() && PageIn(slots, page, now) && position >= old(position)
      ensures r.NotClaimed? ==> Look(id).record.Some? && Look(id).record.value.revision > record.revision
      ensures !r.NotClaimed? ==>
                && record.revision + 1 in Look(id).leases && Look(id).leases[record.revision + 1] == me
                && ReadTwice(old(readings), readings, now, judged, finishedAt)
      ensures r.LeaseLost? ==> Look(id).record.Some? && Look(id).record.value.revision > record.revision + 1
      ensures r.Filed? ==>
                var next := NextAttempt(config, record.value, outcome, now, judged);
                && Look(id).record.Some? && r.idle == next.None? && now <= judged && now <= finishedAt
                && Look(id).record.value.revision == record.revision + 2
                && Look(id).record.value.value ==
                     record.value.(phase := if next.None? then Idle else Scheduled, token := "",
                                   failures := Failures(record.value, outcome))
                && Look(id).record.value.expiresAt == Eligibility(next, finishedAt)
                && record.revision + 1 in Look(id).finished && Look(id).finished[record.revision + 1] == me
      ensures r.Filed? && outcome.Disposed? ==> Look(id).record.value.value.failures == 0
      ensures r.Filed? && outcome.Threw? ==>
                && Look(id).record.value.value.failures == Min(30, record.value.failures + 1)
                && Look(id).record.value.expiresAt ==
                     Some(Max(judged + Delay(config, record.value.failures + 1), finishedAt + 1))
    {
      hide SlotInv, Next, Enabled, NextAttempt, Failures, Delay, Eligibility, ReadTwice, PageIn, SlotRely, Grows;
      r, judged, finishedAt := NotClaimed, 0, 0;
      ghost var m0 := slots;
      Interfere(me);
      PageStays(me, m0, slots, page, now);
      PageTells(slots, page, id, record, now);
      if Look(id).record.value.revision != record.revision { return; }
      LeaseIsEnabled(me, id, Look(id), token, now);
      ghost var m1 := slots;
      Step(me, id, Lease(token), now);
      PageAfterStep(m1, slots, id, page, now);
      LeasedSlot(config, me, id, In(m1, id), token, now);
      var lease := record.revision + 1;
      ghost var leased := Look(id);
      ghost var m2 := slots;
      // the attempt itself: DocumentAsyncRuntime.Advance and Status
      Interfere(me);
      PageStays(me, m2, slots, page, now);
      assert SlotRely(me, leased, Look(id));
      var read := Now();
      judged := Max(now, read);
      var next := NextAttempt(config, record.value, outcome, now, judged);
      var readAgain := Now();
      finishedAt := Max(now, readAgain);
      TwoReadings(old(readings), readings, now, read, readAgain);
      ghost var s2 := Look(id);
      ghost var m3 := slots;
      Interfere(me);
      PageStays(me, m3, slots, page, now);
      assert SlotRely(me, s2, Look(id));
      SlotRelyTransitive(me, leased, s2, Look(id));
      LeaseStands(me, leased, Look(id));
      r := LeaseLost;
      if Look(id).record.value.revision != lease { return; }
      FinishIsEnabled(me, id, leased, Look(id), outcome, judged, finishedAt, now);
      FinishedSlot(config, me, id, Look(id), record, outcome, judged, finishedAt, now);
      ghost var m4 := slots;
      Step(me, id, Finish(outcome, judged, finishedAt), now);
      PageAfterStep(m4, slots, id, page, now);
      FiledAfter(config, record.value, outcome, now, judged, finishedAt);
      r := Filed(next.None?);
    }
  }

  datatype Attempted = NotClaimed | LeaseLost | Filed(idle: bool)

  /** What became of the record at a place of the page. */
  datatype Handled = Rejected(at: nat) | Tried(at: nat, result: Attempted)

  function OutcomeAt(outcomes: seq<Outcome>, at: nat): Outcome {
    if at < |outcomes| then outcomes[at] else Outcome.Threw
  }

  predicate Malformed(f: Found) { f.Garbage? || f.key != f.record.value.jobId || f.record.value.phase == Idle }

  /** The records of the page from `first` on, in order, the malformed ones rejected; only
      while one is attempted may others have taken some. */
  predicate WentThrough(h: seq<Handled>, page: seq<Found>, first: nat, position: nat) {
    && (forall k | 0 <= k < |h| :: h[k].at < |page| && (h[k].Rejected? <==> Malformed(page[h[k].at])))
    && (h == [] ==> position == first) && (h != [] ==> h[0].at == first && h[|h| - 1].at < position)
    && (forall k | 0 < k < |h| :: h[k - 1].at < h[k].at && (h[k - 1].Rejected? ==> h[k].at == h[k - 1].at + 1))
    && (h != [] && h[|h| - 1].Rejected? ==> position == h[|h| - 1].at + 1)
  }

  function TallyOf(h: seq<Handled>, outcomes: seq<Outcome>): Tally {
    if h == [] then Tally(0, 0, 0, 0, 0, 0, 0)
    else
      var t, last := TallyOf(h[..|h| - 1], outcomes), h[|h| - 1];
      match last
      case Rejected(_) => t.(malformed := t.malformed + 1)
      case Tried(at, result) => Count(t, result, OutcomeAt(outcomes, at))
  }

  lemma NothingHandled(page: seq<Found>, first: nat, outcomes: seq<Outcome>)
    ensures WentThrough([], page, first, first) && TallyOf([], outcomes) == Tally(0, 0, 0, 0, 0, 0, 0)
  {
  }

  lemma WentOn(h: seq<Handled>, page: seq<Found>, first: nat, at: nat, x: Handled, position: nat,
          outcomes: seq<Outcome>)
    requires WentThrough(h, page, first, at) && x.at == at < |page| && (x.Rejected? <==> Malformed(page[at]))
    requires at < position && (x.Rejected? ==> position == at + 1)
    ensures WentThrough(h + [x], page, first, position)
    ensures TallyOf(h + [x], outcomes) ==
              if x.Rejected? then TallyOf(h, outcomes).(malformed := TallyOf(h, outcomes).malformed + 1)
              else Count(TallyOf(h, outcomes), x.result, OutcomeAt(outcomes, at))
  {
    hide Count, Malformed;
    assert (h + [x])[..|h|] == h;
  }

  lemma WellFormedIs(f: Found)
    requires !Malformed(f)
    ensures f.Found? && f.record.value.jobId == f.key && f.record.value.phase != Idle && Found(f.key, f.record) == f
  {
  }

  /** The clock was read twice: where the outcome was judged, and where it was filed. */
  predicate ReadTwice(before: seq<int>, after: seq<int>, now: int, judged: int, finishedAt: int) {
    && |after| == |before| + 2 && before <= after
    && judged == Max(now, after[|before|]) && finishedAt == Max(now, after[|before| + 1])
  }

  lemma TwoReadings(before: seq<int>, after: seq<int>, now: int, read: int, readAgain: int)
    requires after == before + [read] + [readAgain]
    ensures ReadTwice(before, after, now, Max(now, read), Max(now, readAgain))
  {
  }

  lemma CountKeepsBalance(t: Tally, r: Attempted, o: Outcome)
    requires Balanced(t)
    ensures var u := Count(t, r, o);
            Balanced(u) && t.claimed <= u.claimed <= t.claimed + 1 && u.malformed == t.malformed
  {
  }

  function Count(t: Tally, r: Attempted, o: Outcome): Tally {
    match r
    case NotClaimed => t
    case LeaseLost => var v := CountAttempt(t, o); v.(leaseLost := v.leaseLost + 1)
    case Filed(idle) =>
      var v := CountAttempt(t, o);
      if idle then v.(idle := v.idle + 1) else v.(rescheduled := v.rescheduled + 1)
  }

  function CountAttempt(t: Tally, o: Outcome): Tally {
    var u := t.(claimed := t.claimed + 1);
    if o.Threw? then u.(failed := u.failed + 1) else u.(advanced := u.advanced + 1)
  }

  // ------------------------------------------------------------------ lemmas of the methods

  lemma PageStays(me: Pid, m: map<string, Slot>, m': map<string, Slot>, page: seq<Found>, now: int)
    requires PageIn(m, page, now) && forall id :: SlotRely(me, In(m, id), In(m', id))
    ensures PageIn(m', page, now)
  {
    forall i | 0 <= i < |page| && page[i].Found? && page[i].record.value.jobId == page[i].key
      ensures SlotRely(me, In(m, page[i].key), In(m', page[i].key))
    {
    }
  }

  lemma LeaseStands(me: Pid, s: Slot, s': Slot)
    requires SlotRely(me, s, s') && s.record.Some?
    ensures s'.record.Some? && s.record.value.revision <= s'.record.value.revision
    ensures forall v | v in s.leases :: v in s'.leases && s'.leases[v] == s.leases[v]
  {
  }

  lemma PageTells(m: map<string, Slot>, page: seq<Found>, id: string, record: Record<Entry>, now: int)
    requires PageIn(m, page, now) && Found(id, record) in page && record.value.jobId == id
    ensures In(m, id).record.Some? && record.revision <= In(m, id).record.value.revision && Due(record, now)
    ensures record.revision == In(m, id).record.value.revision ==> In(m, id).record == Some(record)
  {
  }

  lemma PageAfterStep(m: map<string, Slot>, m': map<string, Slot>, id: string, page: seq<Found>, now: int)
    requires PageIn(m, page, now) && Grows(In(m, id), In(m', id)) && forall k | k != id :: In(m', k) == In(m, k)
    ensures PageIn(m', page, now)
  {
  }

  lemma CreatedSlot(c: Config, p: Pid, id: string, e: Entry, at: int, now: int)
    requires e == Entry(id, e.caller, Scheduled, "", 0) && at > now
    ensures Enabled(p, id, EMPTY, Schedule(e, at), now)
    ensures var s := Next(c, p, id, EMPTY, Schedule(e, at), now);
            s.record.Some? && s.record.value.value == e && s.record.value.expiresAt == Some(at)
  {
  }

  lemma WokenSlot(c: Config, p: Pid, id: string, s: Slot, at: int, now: int)
    requires s.record.Some? && !LeftAlone(s.record.value, at)
    ensures Enabled(p, id, s, Wake(at), now)
    ensures var s' := Next(c, p, id, s, Wake(at), now);
            s'.record.Some? && s'.record.value.value == Woken(s.record.value.value)
                    && s'.record.value.expiresAt == Some(at)
  {
  }

  lemma LeaseIsEnabled(p: Pid, id: string, s: Slot, token: string, now: int)
    requires s.record.Some? && s.record.value.value.phase != Idle && Due(s.record.value, now)
    ensures Enabled(p, id, s, Lease(token), now)
  {
  }

  lemma LeasedSlot(c: Config, p: Pid, id: string, s: Slot, token: string, now: int)
    requires Enabled(p, id, s, Lease(token), now)
    ensures var s' := Next(c, p, id, s, Lease(token), now);
            && s'.record.Some? && s'.record.value.revision == s.record.value.revision + 1
            && s'.record.value.value == s.record.value.value.(phase := Leased, token := token)
            && s'.record.value.revision in s'.leases && s'.leases[s'.record.value.revision] == p
  {
  }

  lemma FinishIsEnabled(p: Pid, id: string, leased: Slot, s: Slot, o: Outcome, judged: int, finishedAt: int, now: int)
    requires SlotRely(p, leased, s) && leased.record.Some? && leased.record.value.value.phase == Leased
    requires leased.record.value.revision in leased.leases && leased.leases[leased.record.value.revision] == p
    requires s.record.value.revision == leased.record.value.revision
    ensures s.record == leased.record && Enabled(p, id, s, Finish(o, judged, finishedAt), now)
  {
  }

  lemma FiledAfter(c: Config, e: Entry, o: Outcome, now: int, judged: int, finishedAt: int)
    requires ValidConfig(c) && now <= judged
    ensures o.Threw? ==>
              Eligibility(NextAttempt(c, e, o, now, judged), finishedAt) ==
                Some(Max(judged + Delay(c, e.failures + 1), finishedAt + 1))
    ensures o.Threw? ==> Failures(e, o) == Min(30, e.failures + 1)
    ensures o.Disposed? ==> Failures(e, o) == 0
  {
    BackoffIsDelay(c, e.failures + 1);
  }

  /** What is written after an attempt is what the source computes from the entry as it
      was before the lease. */
  lemma FinishedSlot(c: Config, p: Pid, id: string, s: Slot, before: Record<Entry>, o: Outcome, judged: int,
          finishedAt: int, now: int)
    requires Enabled(p, id, s, Finish(o, judged, finishedAt), now)
    requires s.record.value.value == before.value.(phase := Leased, token := s.record.value.value.token)
    ensures var next := NextAttempt(c, before.value, o, now, judged);
            var s' := Next(c, p, id, s, Finish(o, judged, finishedAt), now);
            && s'.record.Some?
            && s'.record.value.value ==
                 before.value.(phase := if next.None? then Idle else Scheduled, token := "",
                               failures := Failures(before.value, o))
            && s'.record.value.expiresAt == Eligibility(next, finishedAt)
            && s'.record.value.revision == s.record.value.revision + 1
            && s.record.value.revision in s'.finished && s'.finished[s.record.value.revision] == p
  {
  }
}
