/** The artifact lifecycle (src/core/durable-artifacts.ts): metadata records that are
    verified, revoked, marked for physical cleanup and removed, each by compare-and-swap
    on the revision that was read. Digests are constructors of the content. */
module Artifacts {
  import opened Basics
  import opened DurableStore

  datatype Caller = Caller(tenantId: string, ownerId: string, credentialBinding: string)

  datatype Digest = Hash(content: string)

  /** Random references, and the two reserved for one operation of one caller. */
  datatype RefId =
    | Art(uuid: string)
    | OperationOutput(caller: Caller, operationKey: string)
    | OperationSource(caller: Caller, operationKey: string)

  datatype Status = Active | LogicallyExpired | LogicallyDeleted | PhysicalCleanupPending
  datatype Verification = Pending | Verified
  datatype Reason = BecauseExpired | BecauseDeleted

  datatype Details =
    | Source(mediaType: string, filename: string)
    | Canonical(sourceRefId: RefId, schemaVersion: string, externalSourceRef: Option<string>)
    | Projection(canonicalRefId: RefId, format: string)

  datatype Meta = Meta(
    refId: RefId, owner: Caller, contentHash: Digest, byteSize: nat, expiresAt: int, verification: Verification,
    status: Status, cleanupReason: Option<Reason>, createdAt: int, updatedAt: int, details: Details)

  function Rank(s: Status): nat {
    match s
    case Active => 0
    case LogicallyExpired => 1
    case LogicallyDeleted => 1
    case PhysicalCleanupPending => 2
  }

  /** What an artifact is, from its put to its removal. */
  datatype Identity = Identity(
    refId: RefId, owner: Caller, contentHash: Digest, byteSize: nat, expiresAt: int, createdAt: int, details: Details)

  function IdentityOf(m: Meta): Identity {
    Identity(m.refId, m.owner, m.contentHash, m.byteSize, m.expiresAt, m.createdAt, m.details)
  }

  /** The store, how often each record was removed, how often one was rewritten by a worker
      whose read was older than a removal, and everything that was ever put. */
  datatype World = World(
    records: map<RefId, Record<Meta>>, removed: multiset<RefId>, stale: multiset<RefId>, puts: set<Identity>)

  const EMPTY := World(map[], multiset{}, multiset{}, {})

  datatype Seen = Seen(meta: Meta, revision: nat, lifetime: nat)

  datatype Change = Verify | ExpireIt | DeleteIt | MarkPending | SweepPending

  datatype Action =
    | Put(meta: Meta)
    | Rewrite(ref: RefId, seen: Seen, change: Change)
    | Remove(ref: RefId, seen: Seen)

  function After(m: Meta, c: Change, nowMs: int): Meta {
    match c
    case Verify => m.(verification := Verified, updatedAt := nowMs)
    case ExpireIt => m.(status := LogicallyExpired, cleanupReason := Some(BecauseExpired), updatedAt := nowMs)
    case DeleteIt => m.(status := LogicallyDeleted, cleanupReason := Some(BecauseDeleted), updatedAt := nowMs)
    case MarkPending => m.(status := PhysicalCleanupPending, updatedAt := nowMs)
    case SweepPending =>
      m.(status := PhysicalCleanupPending,
         cleanupReason := if m.cleanupReason.None? then Some(BecauseExpired) else m.cleanupReason, updatedAt := nowMs)
  }

  predicate Applies(m: Meta, c: Change, nowMs: int) {
    nowMs >= m.createdAt &&
    match c
    case Verify => m.status == Active
    case ExpireIt => m.status == Active && nowMs >= m.expiresAt
    case DeleteIt => m.status == Active
    case MarkPending => m.status == LogicallyExpired || m.status == LogicallyDeleted
    case SweepPending => m.status != PhysicalCleanupPending && (m.status == Active ==> m.expiresAt <= nowMs)
  }

  /** Revoked records stay discoverable for cleanup. */
  function ScanExpiry(m: Meta): int { if m.status == Active then m.expiresAt else m.updatedAt + 1 }

  /** What `validateMetadata` asks of the metadata of a reference, and that a revoked record
      names its reason, as every one that is written does. */
  predicate WellFormed(ref: RefId, m: Meta) {
    && m.refId == ref && (m.status == Active <==> m.cleanupReason.None?)
    && 0 <= m.createdAt <= m.updatedAt && m.createdAt < m.expiresAt && m.byteSize >= 1
  }

  /** The metadata's creation time is the record's own; otherwise every read throws. */
  predicate Decodes(r: Record<Meta>) { r.value.createdAt == r.createdAt }

  /** The revision still matches, and what was read had once been put; if the record was not
      removed since, the rest matches as well. */
  predicate CanSwap(w: World, ref: RefId, seen: Seen) {
    && ref in w.records && w.records[ref].revision == seen.revision && WellFormed(ref, seen.meta)
    && seen.lifetime <= w.removed[ref] && IdentityOf(seen.meta) in w.puts
    && (seen.lifetime == w.removed[ref] ==> w.records[ref].value == seen.meta && Decodes(w.records[ref]))
  }

  predicate Enabled(w: World, a: Action, nowMs: int) {
    match a
    case Put(m) =>
      m.refId !in w.records && WellFormed(m.refId, m) && m.status == Active && m.createdAt == m.updatedAt == nowMs
    case Rewrite(ref, seen, change) => CanSwap(w, ref, seen) && Applies(seen.meta, change, nowMs)
    case Remove(ref, seen) => CanSwap(w, ref, seen) && seen.meta.status == PhysicalCleanupPending
  }

  function Next(w: World, a: Action, nowMs: int): World
    requires Enabled(w, a, nowMs)
  {
    match a
    case Put(m) =>
      w.(records := w.records[m.refId := Fresh(m, nowMs, Some(m.expiresAt))], puts := w.puts + {IdentityOf(m)})
    case Rewrite(ref, seen, change) =>
      var m := After(seen.meta, change, nowMs);
      w.(records := w.records[ref := Bump(w.records[ref], m, nowMs, Some(ScanExpiry(m)))],
         stale := if seen.lifetime == w.removed[ref] then w.stale else w.stale + multiset{ref})
    case Remove(ref, seen) =>
      World(w.records - {ref}, w.removed + multiset{ref},
            if seen.lifetime == w.removed[ref] then w.stale else w.stale + multiset{ref}, w.puts)
  }

  // ------------------------------------------------------------------ invariant and order

  predicate RecordInv(ref: RefId, r: Record<Meta>) {
    r.revision >= 1 && WellFormed(ref, r.value) && r.expiresAt == Some(ScanExpiry(r.value))
  }

  ghost predicate WorldInv(w: World) {
    && (forall ref | ref in w.records :: RecordInv(ref, w.records[ref]))
    && (forall ref | ref in w.stale :: w.removed[ref] > 0)
    && (forall ref | ref in w.records && ref !in w.stale :: Decodes(w.records[ref]))
    && (forall ref | ref in w.records :: IdentityOf(w.records[ref].value) in w.puts)
    && (forall i | i in w.puts && w.removed[i.refId] == 0 ::
          i.refId in w.records && IdentityOf(w.records[i.refId].value) == i)
  }

  /** One way only: status by rank, never sideways; verification from pending to verified;
      owner, content, size, expiry and parentage never. */
  predicate Advances(m: Meta, n: Meta) {
    && m.refId == n.refId && m.owner == n.owner && m.contentHash == n.contentHash && m.byteSize == n.byteSize
    && m.expiresAt == n.expiresAt && m.createdAt == n.createdAt && m.details == n.details
    && Rank(m.status) <= Rank(n.status) && (Rank(m.status) == Rank(n.status) ==> m.status == n.status)
    && (m.verification == Verified ==> n.verification == Verified)
    && (m.cleanupReason.Some? ==> n.cleanupReason == m.cleanupReason)
    && (m.status != Active ==> n.verification == m.verification)
  }

  function Disturbances(w: World, ref: RefId): nat { w.removed[ref] + w.stale[ref] }

  ghost predicate Grows(w: World, w': World) {
    && w.removed <= w'.removed && w.stale <= w'.stale && w.puts <= w'.puts
    && (forall ref | ref in w.records && w'.removed[ref] == w.removed[ref] ::
          ref in w'.records && w.records[ref].revision <= w'.records[ref].revision
          && (w.records[ref].revision == w'.records[ref].revision ==> w'.records[ref] == w.records[ref]))
    && (forall ref | ref in w.records && Disturbances(w', ref) == Disturbances(w, ref) ::
          ref in w'.records && Advances(w.records[ref].value, w'.records[ref].value))
  }

  lemma ChangesAdvance(ref: RefId, m: Meta, c: Change, nowMs: int)
    requires WellFormed(ref, m) && Applies(m, c, nowMs)
    ensures Advances(m, After(m, c, nowMs)) && WellFormed(ref, After(m, c, nowMs))
    ensures IdentityOf(After(m, c, nowMs)) == IdentityOf(m)
  {
  }

  lemma StepKeepsRecord(w: World, a: Action, nowMs: int, ref: RefId)
    requires Enabled(w, a, nowMs) && ref in Next(w, a, nowMs).records
             && (ref in w.records ==> RecordInv(ref, w.records[ref]))
    ensures RecordInv(ref, Next(w, a, nowMs).records[ref])
  {
    if a.Rewrite? { ChangesAdvance(a.ref, a.seen.meta, a.change, nowMs); }
  }

  lemma StepAdvances(w: World, a: Action, nowMs: int, ref: RefId)
    requires Enabled(w, a, nowMs) && ref in w.records && Disturbances(Next(w, a, nowMs), ref) == Disturbances(w, ref)
    ensures ref in Next(w, a, nowMs).records && Advances(w.records[ref].value, Next(w, a, nowMs).records[ref].value)
  {
    hide Advances, Applies, After, WellFormed;
    AdvancesReflexive(w.records[ref].value);
    if a.Rewrite? && a.ref == ref { ChangesAdvance(ref, a.seen.meta, a.change, nowMs); }
    if a.Remove? { assert Next(w, a, nowMs).removed[a.ref] == w.removed[a.ref] + 1; }
  }

  lemma StepKeepsInv(w: World, a: Action, nowMs: int)
    requires WorldInv(w) && Enabled(w, a, nowMs)
    ensures WorldInv(Next(w, a, nowMs)) && Grows(w, Next(w, a, nowMs))
  {
    StepKeepsIdentities(w, a, nowMs);
    StepKeepsDecodes(w, a, nowMs);
    StepGrows(w, a, nowMs);
    hide Grows, RecordInv, Applies, After, WellFormed, Decodes;
    var w' := Next(w, a, nowMs);
    forall ref | ref in w'.records ensures RecordInv(ref, w'.records[ref]) { StepKeepsRecord(w, a, nowMs, ref); }
  }

  lemma StepKeepsDecodes(w: World, a: Action, nowMs: int)
    requires WorldInv(w) && Enabled(w, a, nowMs)
    ensures var w' := Next(w, a, nowMs);
            && (forall ref | ref in w'.stale :: w'.removed[ref] > 0)
            && (forall ref | ref in w'.records && ref !in w'.stale :: Decodes(w'.records[ref]))
  {
    hide RecordInv, WellFormed, IdentityOf;
    if a.Rewrite? { RanksRise(a.seen.meta, a.change, nowMs); }
  }

  lemma StepGrows(w: World, a: Action, nowMs: int)
    requires WorldInv(w) && Enabled(w, a, nowMs)
    ensures Grows(w, Next(w, a, nowMs))
  {
    hide Advances, RecordInv, Applies, WellFormed, IdentityOf;
    var w' := Next(w, a, nowMs);
    forall ref | ref in w.records && Disturbances(w', ref) == Disturbances(w, ref)
      ensures ref in w'.records && Advances(w.records[ref].value, w'.records[ref].value)
    {
      StepAdvances(w, a, nowMs, ref);
    }
    if a.Remove? { assert w'.removed[a.ref] == w.removed[a.ref] + 1; }
  }

  lemma StepKeepsIdentities(w: World, a: Action, nowMs: int)
    requires WorldInv(w) && Enabled(w, a, nowMs)
    ensures var w' := Next(w, a, nowMs);
            && w.puts <= w'.puts
            && (forall ref | ref in w'.records :: IdentityOf(w'.records[ref].value) in w'.puts)
            && (forall i | i in w'.puts && w'.removed[i.refId] == 0 ::
                  i.refId in w'.records && IdentityOf(w'.records[i.refId].value) == i)
  {
    hide Advances, RecordInv;
    var w' := Next(w, a, nowMs);
    if a.Rewrite? { ChangesAdvance(a.ref, a.seen.meta, a.change, nowMs); }
    forall i | i in w'.puts && w'.removed[i.refId] == 0
      ensures i.refId in w'.records && IdentityOf(w'.records[i.refId].value) == i
    {
      assert w.removed[i.refId] == 0;
      if a.Rewrite? && a.ref == i.refId {
        assert a.seen.lifetime == 0;
      } else if a.Remove? {
        assert w'.removed[a.ref] == w.removed[a.ref] + 1;
      }
    }
  }

  lemma AdvancesReflexive(m: Meta)
    ensures Advances(m, m)
  {
  }

  lemma GrowsReflexive(w: World)
    ensures Grows(w, w)
  {
  }

  lemma GrowsTransitive(a: World, b: World, c: World)
    requires Grows(a, b) && Grows(b, c)
    ensures Grows(a, c)
  {
    forall ref | ref in a.records && c.removed[ref] == a.removed[ref]
      ensures ref in c.records && a.records[ref].revision <= c.records[ref].revision
              && (a.records[ref].revision == c.records[ref].revision ==> c.records[ref] == a.records[ref])
    {
      assert a.removed[ref] <= b.removed[ref] <= c.removed[ref];
    }
    forall ref | ref in a.records && Disturbances(c, ref) == Disturbances(a, ref)
      ensures ref in c.records && Advances(a.records[ref].value, c.records[ref].value)
    {
      assert a.removed[ref] <= b.removed[ref] <= c.removed[ref] && a.stale[ref] <= b.stale[ref] <= c.stale[ref];
    }
  }

  // ------------------------------------------------------------------ whole runs

  datatype Event = Event(action: Action, nowMs: int)

  function Perform(w: World, e: Event): World {
    if Enabled(w, e.action, e.nowMs) then Next(w, e.action, e.nowMs) else w
  }

  function Execute(w: World, schedule: seq<Event>): World
    decreases |schedule|
  {
    if schedule == [] then w else Execute(Perform(w, schedule[0]), schedule[1..])
  }

  lemma {:induction false} RunKeepsInv(w: World, schedule: seq<Event>)
    requires WorldInv(w)
    ensures WorldInv(Execute(w, schedule)) && Grows(w, Execute(w, schedule))
    decreases |schedule|
  {
    hide WorldInv, Grows, Enabled, Next;
    GrowsReflexive(w);
    if schedule != [] {
      var e := schedule[0];
      if Enabled(w, e.action, e.nowMs) { StepKeepsInv(w, e.action, e.nowMs); }
      RunKeepsInv(Perform(w, e), schedule[1..]);
      GrowsTransitive(w, Perform(w, e), Execute(w, schedule));
    }
  }

  /** Over every run, while a record is not removed: its lifecycle only advances. (A
      rewrite by a worker whose read predates a removal counts as a disturbance; on a
      record never removed there is none.) */
  lemma LifecycleOnlyAdvances(before: seq<Event>, after: seq<Event>, ref: RefId)
    requires ref in Execute(EMPTY, before).records
    ensures var w, w' := Execute(EMPTY, before), Execute(Execute(EMPTY, before), after);
            && (Disturbances(w', ref) == Disturbances(w, ref) ==>
                  ref in w'.records && Advances(w.records[ref].value, w'.records[ref].value))
            && (w'.removed[ref] == 0 ==> Disturbances(w', ref) == Disturbances(w, ref) == 0)
  {
    RunKeepsInv(EMPTY, before);
    RunKeepsInv(Execute(EMPTY, before), after);
  }

  // ------------------------------------------------------------------ what stale workers can do

  /** The status a reader gets; None: there is no record, or reading it throws. */
  function StatusRead(w: World, ref: RefId): Option<Status> {
    if ref in w.records && Decodes(w.records[ref]) then Some(w.records[ref].value.status) else None
  }

  predicate ReadsActive(w: World, ref: RefId) { StatusRead(w, ref) == Some(Active) }

  /** A rewrite of this reference by a worker whose metadata is as old as the record. */
  predicate RewritesAsOld(w: World, a: Action, ref: RefId) {
    a.Rewrite? && a.ref == ref && ref in w.records && a.seen.meta.createdAt == w.records[ref].createdAt
  }

  /** Of all steps enabled on a reachable revoked record exactly a verification of it, with
      metadata created when the record was, makes it read as active again, and exactly such
      a change to a lower rank takes its status back; either was prepared before the record
      was last removed. */
  lemma RevivingStep(before: seq<Event>, a: Action, nowMs: int, ref: RefId)
    requires var w := Execute(EMPTY, before);
             StatusRead(w, ref).Some? && !ReadsActive(w, ref) && Enabled(w, a, nowMs)
    ensures var w, w' := Execute(EMPTY, before), Next(Execute(EMPTY, before), a, nowMs);
            && (ReadsActive(w', ref) <==> RewritesAsOld(w, a, ref) && a.change.Verify?)
            && (Falls(w, w', ref) <==> RewritesAsOld(w, a, ref) && Lowers(w, a, nowMs, ref))
            && (Falls(w, w', ref) ==> a.seen.lifetime < w.removed[ref])
  {
    var w := Execute(EMPTY, before);
    hide WellFormed, Execute;
    if a.Rewrite? && a.ref == ref { RanksRise(a.seen.meta, a.change, nowMs); }
  }

  /** The status read takes a step back. */
  predicate Falls(w: World, w': World, ref: RefId) {
    StatusRead(w, ref).Some? && StatusRead(w', ref).Some? &&
    Rank(StatusRead(w', ref).value) < Rank(StatusRead(w, ref).value)
  }

  predicate Lowers(w: World, a: Action, nowMs: int, ref: RefId)
    requires a.Rewrite? && ref in w.records
  {
    Rank(After(a.seen.meta, a.change, nowMs).status) < Rank(w.records[ref].value.status)
  }

  lemma RanksRise(m: Meta, c: Change, nowMs: int)
    requires Applies(m, c, nowMs)
    ensures Rank(m.status) <= Rank(After(m, c, nowMs).status)
    ensures After(m, c, nowMs).status == Active <==> c.Verify?
    ensures After(m, c, nowMs).createdAt == m.createdAt
  {
  }

  predicate NeverActive(w: World, schedule: seq<Event>, ref: RefId)
    decreases |schedule|
  {
    !ReadsActive(w, ref) && (schedule != [] ==> NeverActive(Perform(w, schedule[0]), schedule[1..], ref))
  }

  /** A step that brings about a record read as active: a verification with metadata as old
      as the record, or a new artifact under the same reference once the old one is gone. */
  predicate Activates(w: World, a: Action, ref: RefId) {
    (RewritesAsOld(w, a, ref) && a.change.Verify?) || (a.Put? && a.meta.refId == ref)
  }

  predicate ActivationPerformed(w: World, schedule: seq<Event>, ref: RefId)
    decreases |schedule|
  {
    schedule != [] &&
    var e := schedule[0];
    || (Enabled(w, e.action, e.nowMs) && Activates(w, e.action, ref))
    || ActivationPerformed(Perform(w, e), schedule[1..], ref)
  }

  /** Over every run: a reference not read as active is never read as active again if and
      only if nothing that follows performs one of those steps. */
  lemma RevokedStaysRevokedExactly(before: seq<Event>, after: seq<Event>, ref: RefId)
    requires !ReadsActive(Execute(EMPTY, before), ref)
    ensures NeverActive(Execute(EMPTY, before), after, ref) <==>
              !ActivationPerformed(Execute(EMPTY, before), after, ref)
  {
    InactiveUnlessActivated(Execute(EMPTY, before), after, ref);
  }

  lemma {:induction false} InactiveUnlessActivated(w: World, schedule: seq<Event>, ref: RefId)
    requires !ReadsActive(w, ref)
    ensures NeverActive(w, schedule, ref) <==> !ActivationPerformed(w, schedule, ref)
    decreases |schedule|
  {
    hide Enabled, Next, Activates, ReadsActive;
    if schedule != [] {
      var e := schedule[0];
      if Enabled(w, e.action, e.nowMs) { StepActivates(w, e.action, e.nowMs, ref); }
      if !ReadsActive(Perform(w, e), ref) { InactiveUnlessActivated(Perform(w, e), schedule[1..], ref); }
    }
  }

  lemma StepActivates(w: World, a: Action, nowMs: int, ref: RefId)
    requires !ReadsActive(w, ref) && Enabled(w, a, nowMs)
    ensures ReadsActive(Next(w, a, nowMs), ref) <==> Activates(w, a, ref)
  {
    hide WellFormed;
    if a.Rewrite? && a.ref == ref { RanksRise(a.seen.meta, a.change, nowMs); }
  }

  /** A record that can be read and from then on cannot. */
  predicate Malforms(w: World, w': World, ref: RefId) {
    StatusRead(w, ref).Some? && ref in w'.records && StatusRead(w', ref).None?
  }

  /** The other thing a stale worker can do: exactly a rewrite with metadata created at
      another time than the record leaves a record that nobody can read, and it was
      prepared before a removal. */
  lemma MalformingStep(before: seq<Event>, a: Action, nowMs: int, ref: RefId)
    requires StatusRead(Execute(EMPTY, before), ref).Some? && Enabled(Execute(EMPTY, before), a, nowMs)
    ensures var w, w' := Execute(EMPTY, before), Next(Execute(EMPTY, before), a, nowMs);
            && (Malforms(w, w', ref) <==>
                  a.Rewrite? && a.ref == ref && a.seen.meta.createdAt != w.records[ref].createdAt)
            && (Malforms(w, w', ref) ==> a.seen.lifetime < w.removed[ref])
  {
    hide WellFormed, Execute;
    if a.Rewrite? && a.ref == ref { RanksRise(a.seen.meta, a.change, nowMs); }
  }

  /** In every run a reference never removed holds what was put under it: the one artifact
      with that owner, content, expiry and parentage. */
  lemma NeverRemovedIsAsPut(schedule: seq<Event>, i: Identity)
    requires i in Execute(EMPTY, schedule).puts && Execute(EMPTY, schedule).removed[i.refId] == 0
    ensures var w := Execute(EMPTY, schedule);
            && i.refId in w.records && IdentityOf(w.records[i.refId].value) == i
            && forall j | j in w.puts && j.refId == i.refId :: j == i
  {
    RunKeepsInv(EMPTY, schedule);
  }

  /** In every run, every revoked record is due for a scan: the sweep can always find it. */
  lemma RevokedStaysDiscoverable(schedule: seq<Event>, ref: RefId, nowMs: int)
    requires ref in Execute(EMPTY, schedule).records && Execute(EMPTY, schedule).records[ref].value.status != Active
    ensures var r := Execute(EMPTY, schedule).records[ref];
            && r.value.cleanupReason.Some? && r.expiresAt.Some?
            && (nowMs > r.value.updatedAt ==> r.expiresAt.value <= nowMs)
  {
    RunKeepsInv(EMPTY, schedule);
    assert RecordInv(ref, Execute(EMPTY, schedule).records[ref]);
  }

  /** Only a record marked for physical cleanup is removed, by a worker that read it in
      this lifetime. */
  lemma OnlyPendingIsRemoved(schedule: seq<Event>, a: Action, nowMs: int)
    requires var w := Execute(EMPTY, schedule); a.Remove? && Enabled(w, a, nowMs) && a.seen.lifetime == w.removed[a.ref]
    ensures Execute(EMPTY, schedule).records[a.ref].value.status == PhysicalCleanupPending
  {
    var w := Execute(EMPTY, schedule);
    assert CanSwap(w, a.ref, a.seen);
  }

  /** Put, verified, deleted, cleaned up and removed. */
  function FirstLife(m: Meta): seq<Event> {
    var t := m.createdAt;
    var m2 := After(m, Verify, t + 1);
    var m3 := After(m2, DeleteIt, t + 2);
    [Event(Put(m), t), Event(Rewrite(m.refId, Seen(m, 1, 0), Verify), t + 1),
     Event(Rewrite(m.refId, Seen(m2, 2, 0), DeleteIt), t + 2),
     Event(Rewrite(m.refId, Seen(m3, 3, 0), MarkPending), t + 3),
     Event(Remove(m.refId, Seen(After(m3, MarkPending, t + 3), 4, 0)), t + 4)]
  }

  function PutAgain(m: Meta, again: int): Meta { m.(createdAt := again, updatedAt := again) }

  /** Put again under the same reference, with this time of creation, and deleted. */
  function SecondLife(m: Meta, again: int): seq<Event> {
    var n := PutAgain(m, again);
    [Event(Put(n), again), Event(Rewrite(m.refId, Seen(n, 1, 1), DeleteIt), again + 1)]
  }

  predicate Puttable(m: Meta) { WellFormed(m.refId, m) && m.status == Active && m.createdAt == m.updatedAt }

  lemma FirstLifeEnds(m: Meta)
    requires Puttable(m)
    ensures m.refId !in Execute(EMPTY, FirstLife(m)).records && Execute(EMPTY, FirstLife(m)).removed[m.refId] == 1
    ensures IdentityOf(m) in Execute(EMPTY, FirstLife(m)).puts
  {
    hide Perform;
    var e, t := FirstLife(m), m.createdAt;
    PutOn(EMPTY, m);
    var w1 := Perform(EMPTY, e[0]);
    RewriteOn(w1, m.refId, Verify, t + 1);
    var w2 := Perform(w1, e[1]);
    RewriteOn(w2, m.refId, DeleteIt, t + 2);
    var w3 := Perform(w2, e[2]);
    RewriteOn(w3, m.refId, MarkPending, t + 3);
    var w4 := Perform(w3, e[3]);
    RemoveOn(w4, m.refId, t + 4);
    FiveSteps(EMPTY, e);
  }

  lemma FiveSteps(w: World, e: seq<Event>)
    requires |e| == 5
    ensures Execute(w, e) == Perform(Perform(Perform(Perform(Perform(w, e[0]), e[1]), e[2]), e[3]), e[4])
  {
    hide Perform;
    var w1 := Perform(w, e[0]);
    var w2 := Perform(w1, e[1]);
    var w3 := Perform(w2, e[2]);
    assert e[1..] == [e[1], e[2], e[3], e[4]] && e[1..][1..] == [e[2], e[3], e[4]] && e[1..][1..][1..] == [e[3], e[4]];
    assert Execute(w, e) == Execute(w1, e[1..]) == Execute(w2, e[1..][1..]) == Execute(w3, e[1..][1..][1..]);
    TwoSteps(w3, e[3], e[4]);
  }

  lemma TwoSteps(w: World, a: Event, b: Event)
    ensures Execute(w, [a, b]) == Perform(Perform(w, a), b)
  {
    assert [a, b][1..] == [b] && [b][1..] == [];
    assert Execute(Perform(w, a), [b]) == Execute(Perform(Perform(w, a), b), []);
  }

  lemma SecondLifeIsRevoked(w: World, m: Meta, again: int)
    requires Puttable(m) && 0 <= again < m.expiresAt && m.refId !in w.records && w.removed[m.refId] == 1
    ensures var w' := Execute(w, SecondLife(m, again));
            && m.refId in w'.records && w'.records[m.refId].revision == 2 && w'.records[m.refId].createdAt == again
            && StatusRead(w', m.refId) == Some(LogicallyDeleted) && w'.removed[m.refId] == 1 && w.puts <= w'.puts
  {
    hide Perform;
    var e := SecondLife(m, again);
    PutOn(w, PutAgain(m, again));
    RewriteOn(Perform(w, e[0]), m.refId, DeleteIt, again + 1);
    TwoSteps(w, e[0], e[1]);
  }

  /** Both are real. Revisions restart when a reference is put again, and a verification
      prepared against the old record then lands on a revoked new one: it revives the record
      if both were put with one time of creation, as saves of one reserved operation are,
      and otherwise leaves one that nobody can read. */
  lemma StaleRewriteRevives(m: Meta, again: int)
    requires Puttable(m) && 0 <= again < m.expiresAt
    ensures var w := Execute(Execute(EMPTY, FirstLife(m)), SecondLife(m, again));
            var a, now := Rewrite(m.refId, Seen(After(m, Verify, m.createdAt + 1), 2, 0), Verify), m.createdAt + 9;
            && StatusRead(w, m.refId) == Some(LogicallyDeleted) && Enabled(w, a, now)
            && (again == m.createdAt ==> ReadsActive(Next(w, a, now), m.refId))
            && (again != m.createdAt ==> Malforms(w, Next(w, a, now), m.refId))
  {
    hide Execute, FirstLife, SecondLife;
    FirstLifeEnds(m);
    SecondLifeIsRevoked(Execute(EMPTY, FirstLife(m)), m, again);
    StaleVerifyOn(Execute(Execute(EMPTY, FirstLife(m)), SecondLife(m, again)), m, again);
  }

  lemma PutOn(w: World, m: Meta)
    requires m.refId !in w.records && Puttable(m)
    ensures var w' := Perform(w, Event(Put(m), m.createdAt));
            && m.refId in w'.records && w'.records[m.refId] == Fresh(m, m.createdAt, Some(m.expiresAt))
            && w'.removed == w.removed && w'.puts == w.puts + {IdentityOf(m)}
  {
  }

  lemma RewriteOn(w: World, ref: RefId, c: Change, nowMs: int)
    requires ref in w.records && WellFormed(ref, w.records[ref].value) && Decodes(w.records[ref])
    requires Applies(w.records[ref].value, c, nowMs) && IdentityOf(w.records[ref].value) in w.puts
    ensures var r := w.records[ref];
            var w' := Perform(w, Event(Rewrite(ref, Seen(r.value, r.revision, w.removed[ref]), c), nowMs));
            && ref in w'.records && w'.records[ref].value == After(r.value, c, nowMs)
            && w'.records[ref].createdAt == r.createdAt && WellFormed(ref, w'.records[ref].value)
            && Decodes(w'.records[ref])
            && w'.records[ref].revision == r.revision + 1 && w'.removed == w.removed && w'.puts == w.puts
            && IdentityOf(w'.records[ref].value) == IdentityOf(r.value)
  {
    ChangesAdvance(ref, w.records[ref].value, c, nowMs);
  }

  lemma RemoveOn(w: World, ref: RefId, nowMs: int)
    requires ref in w.records && WellFormed(ref, w.records[ref].value) && Decodes(w.records[ref])
    requires w.records[ref].value.status == PhysicalCleanupPending && IdentityOf(w.records[ref].value) in w.puts
    ensures var r := w.records[ref];
            var w' := Perform(w, Event(Remove(ref, Seen(r.value, r.revision, w.removed[ref])), nowMs));
            ref !in w'.records && w'.removed[ref] == w.removed[ref] + 1 && w'.puts == w.puts
  {
  }

  lemma StaleVerifyOn(w: World, m: Meta, again: int)
    requires Puttable(m) && m.refId in w.records && w.records[m.refId].revision == 2 && w.removed[m.refId] == 1
    requires w.records[m.refId].createdAt == again && StatusRead(w, m.refId).Some? && IdentityOf(m) in w.puts
    ensures var a, now := Rewrite(m.refId, Seen(After(m, Verify, m.createdAt + 1), 2, 0), Verify), m.createdAt + 9;
            && Enabled(w, a, now)
            && (again == m.createdAt ==> ReadsActive(Next(w, a, now), m.refId))
            && (again != m.createdAt ==> Malforms(w, Next(w, a, now), m.refId))
  {
    ChangesAdvance(m.refId, m, Verify, m.createdAt + 1);
  }

  // ------------------------------------------------------------------ what the repository reads

  predicate OwnedBy(m: Meta, caller: Caller) { m.owner == caller }

  predicate Readable(w: World, ref: RefId, revision: nat, caller: Caller) {
    && ref in w.records && w.records[ref].revision == revision && OwnedBy(w.records[ref].value, caller)
    && Decodes(w.records[ref]) && w.records[ref].value.status == Active && w.records[ref].value.verification == Verified
  }

  predicate SameArtifact(a: Meta, b: Meta) {
    && a.refId == b.refId && a.owner == b.owner && a.contentHash == b.contentHash && a.byteSize == b.byteSize
    && a.expiresAt == b.expiresAt && a.verification == b.verification && a.details == b.details
  }

  /** What was read can be swapped for as long as its revision is found. */
  lemma ReadCanSwap(w: World, w': World, ref: RefId)
    requires WorldInv(w) && Grows(w, w') && ref in w.records && Decodes(w.records[ref])
    requires ref in w'.records && w'.records[ref].revision == w.records[ref].revision
    ensures CanSwap(w', ref, Seen(w.records[ref].value, w.records[ref].revision, w.removed[ref]))
  {
    assert RecordInv(ref, w.records[ref]);
  }
}
