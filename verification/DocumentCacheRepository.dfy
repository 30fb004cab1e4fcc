/** `DurableDocumentCacheRepository` (src/core/durable-document-cache.ts) over the steps
    of DocumentCache. Before every store or blob call the other workers may do anything
    the cache's own steps allow, and the store may fail. */
module DocumentCacheRepository {
  import opened Basics
  import opened DurableStore
  import opened DocumentCache

  datatype Disposition = Ordinary | WasRevoked | Disabled | Bypassed | Refreshing

  /** `fence` is the binding revision a lookup captured; None when it captured nothing. */
  datatype Miss = Miss(disposition: Disposition, fence: Option<Option<nat>>, cacheError: bool)

  datatype LookupResult = Hit(data: string, createdAt: int, expiresAt: int, ageSeconds: int) | Missed(miss: Miss)

  datatype Execution = Execution(data: string, provenance: Provenance)

  datatype CommitResult = CommitResult(
    data: string, stored: bool, expiresAt: Option<int>, degraded: bool, cacheError: bool)

  datatype Answer = FromCache(result: LookupResult) | FromExecution(commit: CommitResult)

  datatype Revocation = BindingsRevoked | BindingMissing

  datatype SweepTarget =
    | OfCore(ks: string, core: Core, expected: nat)
    | OfBinding(at: BindingKey, expected: nat)
    | OfIndex(index: IndexKey, expected: nat)

  const MAX_IMMUTABLE_BLOB_BYTES := 33554432

  /** No tombstone stood undisturbed from the first world to the second. */
  ghost predicate NotFencedThroughout(w: World, w': World, ik: IndexKey) {
    Fenced(w, ik) ==> Disturbances(w', ik) > Disturbances(w, ik)
  }

  lemma FenceHolds(w: World, w': World, ik: IndexKey)
    requires Grows(w, w') && Fenced(w, ik) && !Fenced(w', ik)
    ensures Disturbances(w', ik) > Disturbances(w, ik)
  {
  }

  /** Not fenced at some moment of a call: if it was fenced at the start, it was disturbed. */
  lemma FenceHeldUntil(w0: World, w1: World, w2: World, ik: IndexKey)
    requires Grows(w0, w1) && Grows(w1, w2) && !Fenced(w1, ik) && Fenced(w0, ik)
    ensures Disturbances(w2, ik) > Disturbances(w0, ik)
  {
    FenceHolds(w0, w1, ik);
  }

  /** What a worker reads of an index is well formed. */
  lemma Reading(w: World, ik: IndexKey)
    requires WorldInv(w)
    ensures ik in w.indexes ==> WellFormed(ik, w.indexes[ik].value)
  {
  }

  /** A swap on the revision read is one of the cache's steps, whatever happened since. */
  lemma ReadStays(w: World, w': World, ik: IndexKey)
    requires WorldInv(w) && Grows(w, w') && WorldInv(w') && ik in w.indexes && !w.indexes[ik].value.revoked
    requires ik in w'.indexes && w'.indexes[ik].revision == w.indexes[ik].revision
    ensures CanSwap(w', ik, Seen(w.indexes[ik].value, w.indexes[ik].revision, w.sweptIndexes[ik]))
  {
    assert IndexInv(w, ik);
  }

  predicate Indexed(w: World, ik: IndexKey, k: BindingKey, until: int) {
    ik in w.indexes && !w.indexes[ik].value.revoked && k in w.indexes[ik].value.bindingKeys
            && w.indexes[ik].value.expiresAt >= until
  }

  /** `isEquivalentLiveBinding` of the record the store reports. */
  predicate StandsFor(w: World, i: Identity) {
    LiveBinding(w, BindingOf(i), i) && w.bindings[BindingOf(i)].value.expiresAt > i.nowMs
  }

  /** The index has no room for another binding. */
  predicate Full(w: World, ik: IndexKey, k: BindingKey) {
    && ik in w.indexes && k !in w.indexes[ik].value.bindingKeys
    && |w.indexes[ik].value.bindingKeys| >= MAX_SOURCE_BINDINGS
  }

  /** The core's payload cannot be loaded, or it does not report an original execution. */
  predicate Unusable(w: World, core: Core, withPayloads: bool) {
    || (core.payload.InBlob? && (!withPayloads || core.payload.blob !in w.blobs
                                 || |core.payload.blob.content| != core.payload.byteSize))
    || !core.provenance.isOriginal || core.expiresAt <= core.createdAt
  }

  /** Why a commit that went to the store stored nothing although nothing failed: the source
      was fenced, or the fence of its lookup had been passed by another binding. */
  predicate TurnedAway(w: World, i: Identity, decision: Miss) {
    || Fenced(w, IndexOf(i))
    || (decision.disposition == Ordinary && decision.fence.Some? && !WroteOver(w, BindingOf(i), decision.fence.value)
        && !StandsFor(w, i))
  }

  predicate LiveBinding(w: World, k: BindingKey, i: Identity) {
    && k in w.bindings && !w.bindings[k].value.revoked && w.bindings[k].value.coreKey == k.ks
    && w.bindings[k].value.sourceIdentity == i.sourceIdentity && w.bindings[k].value.sourceVersion == i.sourceVersion
    && w.bindings[k].value.ownershipScope == i.ownershipScope
  }

  /** The core records a worker has written, by its own steps. */
  ghost function CoresWritten(log: seq<Event>): seq<Core> {
    if log == [] then []
    else
      var last := log[|log| - 1].action;
      CoresWritten(log[..|log| - 1]) + (if last.WriteCore? then [last.core] else [])
  }

  /** One step adds its core to them, if it writes one. */
  lemma OneMoreStep(log: seq<Event>, e: Event)
    ensures CoresWritten(log + [e]) == CoresWritten(log) + (if e.action.WriteCore? then [e.action.core] else [])
  {
    assert (log + [e])[..|log|] == log;
  }

  /** Either this core was written and accepted, or, unless it must be, one that was there. */
  ghost predicate PlacedCore(before: seq<Event>, after: seq<Event>, core: Core, must: bool, nowMs: int, r: Try<Core>) {
    || (CoresWritten(after) == CoresWritten(before) + [core] && (r.Answered? ==> r.value == core))
    || (CoresWritten(after) == CoresWritten(before) && (r.Answered? ==> !must && r.value.expiresAt > nowMs))
  }

  /** Data no blob store takes. */
  predicate Unstorable(data: string) { !(1 <= |data| <= MAX_IMMUTABLE_BLOB_BYTES) }

  /** The core a commit makes of an execution. */
  predicate MadeOf(c: Core, s: Settings, i: Identity, execution: Execution) {
    && c.key == i.key && c.keyString == KeyString(i.key) && DataOf(c) == execution.data
    && c.provenance == execution.provenance && c.createdAt == i.nowMs && c.expiresAt == i.nowMs + Ttl(s, i) * 1000
  }

  /** A commit writes no core but that of its execution, and that at most once. */
  ghost predicate WritesItsOwn(before: seq<Event>, after: seq<Event>, s: Settings, i: Identity, execution: Execution) {
    var earlier, later := CoresWritten(before), CoresWritten(after);
    later == earlier || (exists c :: later == earlier + [c] && MadeOf(c, s, i, execution))
  }

  /** The lookup goes to the store at all. */
  predicate Searches(s: Settings, i: Identity) { s.enabled && i.mode == Use && !Excluded(i) }

  /** What each decision answers, unless the store or a blob fails; a rebind answers once the
      binding made for this very request is written. */
  predicate Answers(s: Settings, i: Identity, m: Reads, w: World, r: LookupResult) {
    match DecisionOf(m, i, Ttl(s, i))
    case HitNow => r.Hit?
    case Rebind =>
      || (r == Missed(Miss(WasRevoked, None, false)) && Fenced(w, IndexOf(i)))
      || (r.Hit? && BindingOf(i) in w.bindings
          && w.bindings[BindingOf(i)].value ==
               NewBinding(s, i, m.core.cores[KeyString(i.key)].value))
    case SayRevoked => r == Missed(Miss(WasRevoked, None, false))
    case SayOrdinary(fence) => r == Missed(Miss(Ordinary, Some(fence), false))
  }

  /** What may keep a hit or a rebind from being answered though the store works: the core
      cannot be loaded or is not original, or the index is full. */
  predicate Fails(s: Settings, i: Identity, m: Reads, w: World, withPayloads: bool) {
    match DecisionOf(m, i, Ttl(s, i))
    case HitNow =>
      KeyString(i.key) in m.core.cores && Unusable(w, m.core.cores[KeyString(i.key)].value, withPayloads)
    case Rebind =>
      && KeyString(i.key) in m.core.cores
      && (Unusable(w, m.core.cores[KeyString(i.key)].value, withPayloads) || Full(w, IndexOf(i), BindingOf(i)))
    case _ => false
  }

  /** Why a lookup does not go to the store: the cache is off although it was asked for, the
      request or its tool bypasses it, or it is to be refreshed. */
  function Unsearched(s: Settings, i: Identity): Disposition {
    if !s.enabled && i.mode != Bypass then Disabled
    else if i.mode == Bypass || Excluded(i) then Bypassed
    else Refreshing
  }

  /** The reads fell into the call. */
  ghost predicate ReadDuring(w0: World, m: Reads, w1: World) {
    && Grows(w0, m.core) && Grows(m.core, w1) && Grows(w0, m.binding) && Grows(m.binding, w1)
    && Grows(w0, m.index) && Grows(m.index, w1)
  }

  lemma ReadDuringLater(w0: World, m: Reads, w1: World, w2: World)
    requires ReadDuring(w0, m, w1) && Grows(w1, w2)
    ensures ReadDuring(w0, m, w2)
  {
    GrowsTransitive(m.core, w1, w2);
    GrowsTransitive(m.binding, w1, w2);
    GrowsTransitive(m.index, w1, w2);
  }

  /** A hit's data is that of a core some commit wrote under the key string, which had not
      expired at the lookup's time, and whose provenance is the original execution. */
  predicate Backed(w: World, i: Identity, r: LookupResult, source: Core)
    requires r.Hit?
  {
    && source in w.committed && source.keyString == KeyString(i.key) && i.nowMs < source.expiresAt
    && r.data == DataOf(source) && source.provenance.isOriginal
    && r.createdAt == source.createdAt && r.expiresAt == source.expiresAt && r.createdAt < r.expiresAt
    && (if i.nowMs < r.createdAt then r.ageSeconds == 0
        else r.ageSeconds * 1000 <= i.nowMs - r.createdAt < (r.ageSeconds + 1) * 1000)
  }

  class DurableDocumentCacheRepository {
    var w: World
    var failing: bool        // the next store or blob call throws
    ghost var log: seq<Event>  // the steps this worker has taken
    ghost var lost: nat        // the swaps this worker has lost to others
    const maxCasAttempts: nat
    const withPayloads: bool

    constructor(maxCasAttempts: nat, withPayloads: bool)
      requires maxCasAttempts >= 1
      ensures Valid() && w == EMPTY && this.maxCasAttempts == maxCasAttempts
    {
      this.maxCasAttempts := maxCasAttempts;
      this.withPayloads := withPayloads;
      w := EMPTY;
      failing := false;
      log := [];
      lost := 0;
    }

    ghost predicate Valid() reads this { WorldInv(w) }

    method Interfere()
      requires Valid()
      modifies this
      ensures Valid() && Grows(old(w), w) && log == old(log) && lost == old(lost)
    {
      GrowsReflexive(w);
    }

    /** The store failed, or every attempt at a swap lost to another worker. */
    ghost predicate GaveUp(before: nat) reads this { failing || lost >= before + maxCasAttempts }

    method Step(a: Action, nowMs: int)
      requires Valid() && Enabled(w, a, nowMs)
      modifies this`w, this`log
      ensures Valid() && w == Next(old(w), a, nowMs) && Grows(old(w), w) && log == old(log) + [Event(a, nowMs)]
      ensures CoresWritten(log) == CoresWritten(old(log)) + (if a.WriteCore? then [a.core] else [])
    {
      OneMoreStep(log, Event(a, nowMs));
      StepKeepsWorldInv(w, a, nowMs);
      StepGrows(w, a, nowMs);
      w := Next(w, a, nowMs);
      log := log + [Event(a, nowMs)];
    }

    // ---------------------------------------------------------------- the source index

    /** True: at the end of the call the index lists the binding and carries no tombstone. */
    method EnsureSourceIndex(ik: IndexKey, k: BindingKey, nowMs: int, until: int) returns (r: Try<bool>)
      requires Valid() && k.scope == ik.scope && k.source == ik.source
      modifies this
      ensures Valid() && Grows(old(w), w)
      ensures r == Answered(true) ==> Indexed(w, ik, k, until)
      ensures r == Answered(false) ==> Fenced(w, ik)
      ensures lost >= old(lost) && (r.Threw? ==> GaveUp(old(lost)) || Full(w, ik, k))
      ensures CoresWritten(log) == CoresWritten(old(log))
    {
      hide WorldInv, Grows;
      GrowsReflexive(w);
      for attempt := 0 to maxCasAttempts
        invariant Valid() && Grows(old(w), w) && log == old(log) && lost == old(lost) + attempt
      {
        ghost var w0 := w;
        Interfere();
        ghost var w1 := w;
        GrowsTransitive(old(w), w0, w1);
        if failing { return Threw; }
        var current := IndexAt(w, ik);
        var lifetime := w.sweptIndexes[ik];
        Reading(w1, ik);
        if current.None? {
          Interfere();
          ghost var w2 := w;
          GrowsTransitive(old(w), w1, w2);
          if failing { return Threw; }
          if ik !in w.indexes {
            Step(CreateIndex(ik, k, until), nowMs);
            GrowsTransitive(old(w), w2, w);
            return Answered(true);
          }
          lost := lost + 1;
        } else {
          var index := current.value.value;
          if index.ownershipScope != ik.scope || index.sourceIdentity != ik.source { return Threw; }
          if index.revoked { return Answered(false); }
          if k !in index.bindingKeys && |index.bindingKeys| + 1 > MAX_SOURCE_BINDINGS { return Threw; }
          if k in index.bindingKeys && until <= index.expiresAt { return Answered(true); }
          Interfere();
          ghost var w3 := w;
          GrowsTransitive(old(w), w1, w3);
          if failing { return Threw; }
          if ik in w.indexes && w.indexes[ik].revision == current.value.revision {
            ReadStays(w1, w3, ik);
            Step(ExtendIndex(ik, Seen(index, current.value.revision, lifetime), k, until), nowMs);
            GrowsTransitive(old(w), w3, w);
            return Answered(true);
          }
          lost := lost + 1;
        }
      }
      r := Threw;
    }

    // ---------------------------------------------------------------- bindings

    /** Revoked: the binding record carries the revocation when the call returns; missing:
        there is none. The only step taken is that revocation. */
    method RevokeBindingRecord(k: BindingKey, nowMs: int) returns (r: Try<Revocation>)
      requires Valid()
      modifies this
      ensures Valid() && Grows(old(w), w)
      ensures r == Answered(BindingsRevoked) ==> k in w.bindings && w.bindings[k].value.revoked
      ensures r == Answered(BindingMissing) ==> k !in w.bindings
      ensures log == old(log)
              || (exists e: Event :: log == old(log) + [e] && e.action.RevokeBinding? && e.action.at == k)
      ensures lost >= old(lost) && (r.Threw? ==> GaveUp(old(lost)))
      ensures CoresWritten(log) == CoresWritten(old(log))
    {
      hide WorldInv, Grows;
      GrowsReflexive(w);
      for attempt := 0 to maxCasAttempts
        invariant Valid() && Grows(old(w), w) && log == old(log) && lost == old(lost) + attempt
      {
        ghost var w0 := w;
        Interfere();
        ghost var w1 := w;
        GrowsTransitive(old(w), w0, w1);
        if failing { return Threw; }
        if k !in w.bindings { return Answered(BindingMissing); }
        var record := w.bindings[k];
        BindingAddressed(w, k);
        if record.value.revoked { return Answered(BindingsRevoked); }
        Interfere();
        ghost var w2 := w;
        GrowsTransitive(old(w), w1, w2);
        if failing { return Threw; }
        if k !in w.bindings { return Answered(BindingMissing); }
        if w.bindings[k].revision == record.revision {
          Step(RevokeBinding(k, record.value, record.revision), nowMs);
          GrowsTransitive(old(w), w2, w);
          return Answered(BindingsRevoked);
        }
        lost := lost + 1;
      }
      r := Threw;
    }

    /** Create, or overwrite whatever is there: rebinds and refreshes are not fenced. */
    method UpsertBinding(s: Settings, i: Identity, of: Core) returns (ok: bool)
      requires Valid() && Bindable(w, s, i, of)
      modifies this
      ensures Valid() && Grows(old(w), w)
      ensures ok ==> BindingOf(i) in w.bindings && w.bindings[BindingOf(i)].value == NewBinding(s, i, of)
      ensures lost >= old(lost) && (!ok ==> GaveUp(old(lost)))
      ensures CoresWritten(log) == CoresWritten(old(log))
    {
      hide WorldInv, Grows, Ttl;
      var k := BindingOf(i);
      GrowsReflexive(w);
      for attempt := 0 to maxCasAttempts
        invariant Valid() && Grows(old(w), w) && log == old(log) && lost == old(lost) + attempt
      {
        ghost var w0 := w;
        Interfere();
        ghost var w1 := w;
        GrowsTransitive(old(w), w0, w1);
        if failing { return false; }
        var current := BindingAt(w, k);
        Interfere();
        ghost var w2 := w;
        GrowsTransitive(old(w), w1, w2);
        if failing { return false; }
        CommittedStays(old(w), w2);
        if WroteOver(w, k, if current.None? then None else Some(current.value.revision)) {
          Step(WriteBinding(s, i, of), i.nowMs);
          GrowsTransitive(old(w), w2, w);
          return true;
        }
        lost := lost + 1;
      }
      ok := false;
    }

    /** An ordinary commit writes only over the revision its lookup captured, or accepts an
        equivalent live binding that is already there. */
    method UpsertBindingFenced(s: Settings, i: Identity, of: Core, expected: Option<nat>)
      returns (r: Try<bool>, ghost found: World)
      requires Valid() && Bindable(w, s, i, of) && of.expiresAt > i.nowMs
      modifies this
      ensures Valid() && Grows(old(w), w)
      ensures r == Answered(true) ==>
                LiveBinding(w, BindingOf(i), i) && w.bindings[BindingOf(i)].value.expiresAt > i.nowMs
      ensures Grows(old(w), found)
      ensures (log == old(log) && w == found) ||
              (log == old(log) + [Event(WriteBinding(s, i, of), i.nowMs)] && WroteOver(found, BindingOf(i), expected)
               && w == Next(found, WriteBinding(s, i, of), i.nowMs))
      ensures lost == old(lost) && (r.Threw? ==> failing)
      ensures r == Answered(false) ==> w == found && !WroteOver(found, BindingOf(i), expected) && !StandsFor(found, i)
      ensures CoresWritten(log) == CoresWritten(old(log))
    {
      hide WorldInv, Grows, Ttl;
      var k := BindingOf(i);
      ghost var w0 := w;
      GrowsReflexive(w);
      Interfere();
      ghost var w1 := w;
      CommittedStays(w0, w1);
      r, found := Threw, w;
      if failing { return; }
      if expected.None? {
        if k !in w.bindings {
          Step(WriteBinding(s, i, of), i.nowMs);
          GrowsTransitive(w0, w1, w);
          r := Answered(true);
          return;
        }
      } else {
        if k !in w.bindings {
          r := Answered(false);
          return;
        }
        if w.bindings[k].revision == expected.value {
          Step(WriteBinding(s, i, of), i.nowMs);
          GrowsTransitive(w0, w1, w);
          r := Answered(true);
          return;
        }
      }
      r := Answered(StandsFor(w, i));
    }

    // ---------------------------------------------------------------- cores and payloads

    method DeleteUnusedPayload(candidate: Core, winner: Core) returns (ok: bool)
      requires Valid()
      modifies this
      ensures Valid() && Grows(old(w), w)
      ensures lost == old(lost) && (!ok ==> failing)
      ensures CoresWritten(log) == CoresWritten(old(log))
    {
      hide WorldInv, Grows;
      GrowsReflexive(w);
      ok := true;
      if withPayloads && candidate.payload.InBlob? && candidate.payload != winner.payload {
        ghost var w0 := w;
        Interfere();
        ghost var w1 := w;
        if failing { return false; }
        Step(DropBlob(candidate.payload.blob), 0);
        GrowsTransitive(w0, w1, w);
      }
    }

    method ReplaceRecord(core: Core, nowMs: int) returns (r: Try<Core>)
      requires Valid() && CanCommit(core)
      modifies this
      ensures Valid() && Grows(old(w), w)
      ensures r.Answered? ==> r.value == core && core in w.committed
      ensures || CoresWritten(log) == CoresWritten(old(log)) + [core]
              || (CoresWritten(log) == CoresWritten(old(log)) && r.Threw?)
      ensures lost >= old(lost) && (r.Threw? ==> GaveUp(old(lost)))
    {
      hide WorldInv, Grows, CanCommit;
      GrowsReflexive(w);
      for attempt := 0 to maxCasAttempts
        invariant Valid() && Grows(old(w), w) && log == old(log) && lost == old(lost) + attempt
      {
        ghost var w0 := w;
        Interfere();
        ghost var w1 := w;
        GrowsTransitive(old(w), w0, w1);
        if failing { return Threw; }
        var current := CoreAt(w, core.keyString);
        Interfere();
        ghost var w2 := w;
        GrowsTransitive(old(w), w1, w2);
        if failing { return Threw; }
        if current.None? {
          if core.keyString !in w.cores {
            CommitStep(w, core, nowMs);
            Step(WriteCore(core), nowMs);
            GrowsTransitive(old(w), w2, w);
            return Answered(core);
          }
        } else if core.keyString in w.cores && w.cores[core.keyString].revision == current.value.revision {
          CommitStep(w, core, nowMs);
          Step(WriteCore(core), nowMs);
          ghost var w3 := w;
          GrowsTransitive(old(w), w2, w3);
          var dropped := DeleteUnusedPayload(current.value.value, core);
          GrowsTransitive(old(w), w3, w);
          CommittedStays(w3, w);
          return if dropped then Answered(core) else Threw;
        }
        lost := lost + 1;
      }
      r := Threw;
    }

    /** The core to bind to: one already stored and unexpired, or this one. */
    method CreateCoreIfMissing(core: Core, nowMs: int) returns (r: Try<Core>)
      requires Valid() && CanCommit(core)
      modifies this
      ensures Valid() && Grows(old(w), w)
      ensures r.Answered? ==>
                r.value in w.committed && r.value.keyString == core.keyString
                  && (r.value == core || r.value.expiresAt > nowMs)
      ensures PlacedCore(old(log), log, core, false, nowMs, r)
      ensures lost >= old(lost) && (r.Threw? ==> GaveUp(old(lost)))
    {
      hide WorldInv, Grows, CanCommit;
      ghost var w0 := w;
      Interfere();
      ghost var w1 := w;
      if failing { return Threw; }
      if core.keyString !in w.cores {
        CommitStep(w, core, nowMs);
        Step(WriteCore(core), nowMs);
        GrowsTransitive(w0, w1, w);
        return Answered(core);
      }
      var existing := w.cores[core.keyString].value;
      StoredCore(w, core.keyString);
      if existing.expiresAt > nowMs && existing.keyString == core.keyString {
        var dropped := DeleteUnusedPayload(core, existing);
        GrowsTransitive(w0, w1, w);
        CommittedStays(w1, w);
        return if dropped then Answered(existing) else Threw;
      }
      var replaced := ReplaceRecord(core, nowMs);
      GrowsTransitive(w0, w1, w);
      r := replaced;
    }

    /** The payload reference for the data: a content-addressed blob, or the data itself. */
    method StorePayload(owner: string, ks: string, data: string) returns (r: Try<Payload>)
      requires Valid()
      modifies this
      ensures Valid() && Grows(old(w), w)
      ensures CoresWritten(log) == CoresWritten(old(log))
      ensures lost == old(lost)
      ensures r.Threw? ==> failing || (withPayloads && !(1 <= |data| <= MAX_IMMUTABLE_BLOB_BYTES))
      ensures r.Answered? ==> r.value == if withPayloads then InBlob(Blob(owner, ks, data), |data|) else Inline(data)
    {
      hide WorldInv, Grows;
      GrowsReflexive(w);
      if !withPayloads { return Answered(Inline(data)); }
      if |data| < 1 || |data| > MAX_IMMUTABLE_BLOB_BYTES { return Threw; }
      ghost var w0 := w;
      Interfere();
      ghost var w1 := w;
      if failing { return Threw; }
      Step(PutBlob(Blob(owner, ks, data)), 0);
      GrowsTransitive(w0, w1, w);
      r := Answered(InBlob(Blob(owner, ks, data), |data|));
    }

    /** The bytes of a blob are those its key was made from, or the load fails. */
    method LoadCoreData(core: Core) returns (r: Try<string>)
      requires Valid()
      modifies this
      ensures Valid() && Grows(old(w), w)
      ensures r.Answered? ==> r.value == DataOf(core)
      ensures lost == old(lost) && (r.Threw? ==> failing || Unusable(w, core, withPayloads))
    {
      GrowsReflexive(w);
      if core.payload.Inline? { return Answered(core.payload.data); }
      if !withPayloads { return Threw; }
      Interfere();
      if failing || core.payload.blob !in w.blobs || |core.payload.blob.content| != core.payload.byteSize {
        return Threw;
      }
      r := Answered(core.payload.blob.content);
    }

    // ---------------------------------------------------------------- lookup

    /** A hit is backed by a committed, unexpired core under the same key string, and is
        given only if the source was not fenced at some moment of the call. Which moments
        the three parallel reads fall in is for the store to say (`at`); what they found
        decides the answer, unless something fails. */
    method Lookup(s: Settings, i: Identity, at: (nat, nat, nat))
      returns (r: Option<LookupResult>, ghost source: Option<Core>, ghost m: Reads)
      requires Valid() && at.0 < 3 && at.1 < 3 && at.2 < 3
      modifies this
      ensures Valid() && Grows(old(w), w)
      ensures r.None? <==> !ValidIdentity(i)
      ensures r.Some? && r.value.Hit? ==> Searches(s, i)
      ensures r.Some? && Searches(s, i) ==>
                && ReadDuring(old(w), m, w) && DecidedRightly(m, i, Ttl(s, i), DecisionOf(m, i, Ttl(s, i)))
                && if r.value == Missed(Miss(Ordinary, None, true))
                   then GaveUp(old(lost)) || Fails(s, i, m, w, withPayloads)
                   else Answers(s, i, m, w, r.value)
      ensures r.Some? && !Searches(s, i) ==> r.value == Missed(Miss(Unsearched(s, i), None, false))
      ensures r.Some? && r.value.Hit? ==> source.Some? && Backed(w, i, r.value, source.value)
      ensures r.Some? && r.value.Hit? ==> NotFencedThroughout(old(w), w, IndexOf(i))
      ensures r.Some? && r.value.Missed? ==> Compatible(s, i, r.value.miss)
    {
      hide WorldInv, Grows;
      GrowsReflexive(w);
      source, m := None, Reads(w, w, w);
      if !ValidIdentity(i) {
        r := None;
        return;
      }
      var resolved := ResolveMode(i.mode, SettingsFor(s, i));
      var mode := if Excluded(i) then Bypass else resolved.mode;
      if mode == Bypass {
        r := Some(Missed(Miss(if resolved.degraded then Disabled else Bypassed, None, false)));
        return;
      }
      if mode == Refresh {
        r := Some(Missed(Miss(Refreshing, None, false)));
        return;
      }
      var found, backing, moments := LookupStored(s, i, at);
      source, m := backing, moments;
      r := Some(if found.Answered? then found.value else Missed(Miss(Ordinary, None, true)));
    }

    method LookupStored(s: Settings, i: Identity, at: (nat, nat, nat))
      returns (r: Try<LookupResult>, ghost source: Option<Core>, ghost m: Reads)
      requires Valid() && at.0 < 3 && at.1 < 3 && at.2 < 3 && ValidIdentity(i)
      modifies this
      ensures Valid() && Grows(old(w), w)
      ensures ReadDuring(old(w), m, w) && DecidedRightly(m, i, Ttl(s, i), DecisionOf(m, i, Ttl(s, i)))
      ensures if r.Threw? then GaveUp(old(lost)) || Fails(s, i, m, w, withPayloads) else Answers(s, i, m, w, r.value)
      ensures r.Answered? && r.value.Hit? ==> source.Some? && Backed(w, i, r.value, source.value)
      ensures r.Answered? && r.value.Hit? ==> NotFencedThroughout(old(w), w, IndexOf(i))
      ensures r.Answered? && r.value.Missed? ==>
                && !r.value.miss.cacheError
                && (r.value.miss.disposition == WasRevoked || (r.value.miss.disposition == Ordinary
                        && r.value.miss.fence.Some?))
    {
      hide WorldInv, Grows, CanCommit;
      var ks, k, ik := KeyString(i.key), BindingOf(i), IndexOf(i);
      ghost var w0 := w;
      r, source := Threw, None;
      hide DecidedRightly;
      Interfere();
      var w1 := w;
      Interfere();
      var w2 := w;
      Interfere();
      var w3 := w;
      GrowsTransitive(w0, w1, w2);
      GrowsTransitive(w0, w2, w3);
      GrowsTransitive(w1, w2, w3);
      GrowsReflexive(w3);
      var coreWorld, bindingWorld, indexWorld := [w1, w2, w3][at.0], [w1, w2, w3][at.1], [w1, w2, w3][at.2];
      m := Reads(coreWorld, bindingWorld, indexWorld);
      DecisionIsRight(m, i, Ttl(s, i));
      if failing { return; }
      var core, binding, index := CoreAt(coreWorld, ks), BindingAt(bindingWorld, k), IndexAt(indexWorld, ik);
      var ttl := Ttl(s, i);
      var decision := Decide(core, binding, index, i, ttl);
      if core.Some? {
        StoredCore(coreWorld, ks);
        CommittedStays(coreWorld, w3);
      }
      match decision {
        case HitNow =>
          source := Some(core.value.value);
          var data := LoadCoreData(core.value.value);
          ReadDuringLater(w0, m, w3, w);
          GrowsTransitive(w0, w3, w);
          CommittedStays(w3, w);
          if data.Threw? { return; }
          r := MakeHit(core.value.value, data.value, i.nowMs);
          HitIsBacked(w, i, core.value.value, r);
          if Fenced(w0, ik) { FenceHeldUntil(w0, indexWorld, w, ik); }
        case Rebind =>
          source := Some(core.value.value);
          r := RebindTo(s, i, core.value.value, ttl);
          ReadDuringLater(w0, m, w3, w);
          GrowsTransitive(w0, w3, w);
          if r.Answered? && r.value.Hit? && Fenced(w0, ik) { FencedSince(w0, w3, w, ik); }
        case SayRevoked => r := Answered(Missed(Miss(WasRevoked, None, false)));
        case SayOrdinary(fence) => r := Answered(Missed(Miss(Ordinary, Some(fence), false)));
      }
    }

    /** Binds a live core to this source: the index first, then the binding. */
    method RebindTo(s: Settings, i: Identity, core: Core, ttl: int) returns (r: Try<LookupResult>)
      requires Valid() && ValidIdentity(i) && core in w.committed && CanCommit(core)
              && core.keyString == KeyString(i.key) && core.expiresAt > i.nowMs
      requires ttl == Ttl(s, i) > 0
      modifies this
      ensures Valid() && Grows(old(w), w)
      ensures r.Answered? && r.value.Hit? ==> Backed(w, i, r.value, core)
      ensures r.Answered? && r.value.Hit? ==>
                BindingOf(i) in w.bindings && w.bindings[BindingOf(i)].value == NewBinding(s, i, core)
      ensures r.Answered? && r.value.Hit? ==> NotFencedThroughout(old(w), w, IndexOf(i))
      ensures r.Answered? && r.value.Missed? ==> r.value.miss == Miss(WasRevoked, None, false) && Fenced(w, IndexOf(i))
      ensures r.Threw? ==>
                GaveUp(old(lost)) || Unusable(w, core, withPayloads) || Full(w, IndexOf(i), BindingOf(i))
    {
      hide WorldInv, Grows, Ttl, CanCommit;
      var k, ik := BindingOf(i), IndexOf(i);
      ghost var w0 := w;
      var expiresAt := Min(core.expiresAt, i.nowMs + ttl * 1000);
      TtlIsWithinBounds(s, i);
      var data := LoadCoreData(core);
      ghost var w1 := w;
      if data.Threw? { return Threw; }
      var ensured := EnsureSourceIndex(ik, k, i.nowMs, expiresAt);
      ghost var w2 := w;
      GrowsTransitive(w0, w1, w2);
      if ensured.Threw? { return Threw; }
      if !ensured.value { return Answered(Missed(Miss(WasRevoked, None, false))); }
      CommittedStays(w0, w2);
      var ok := UpsertBinding(s, i, core);
      GrowsTransitive(w0, w2, w);
      CommittedStays(w0, w);
      if !ok { return Threw; }
      r := MakeHit(core, data.value, i.nowMs);
      HitIsBacked(w, i, core, r);
      if Fenced(w0, ik) { FenceHeldUntil(w0, w2, w, ik); }
    }

    /** A hit must report the original execution; anything else is a cache fault. */
    method MakeHit(core: Core, data: string, nowMs: int) returns (r: Try<LookupResult>)
      ensures r == HitOf(core, data, nowMs)
    {
      var age := Max(0, (nowMs - core.createdAt) / 1000);
      if !core.provenance.isOriginal || core.expiresAt <= core.createdAt { return Threw; }
      r := Answered(Hit(data, core.createdAt, core.expiresAt, age));
    }

    // ---------------------------------------------------------------- commit

    /** Storing never changes the answer, and no core is written but that of the execution; a
        stored binding is within every limit of the request, and is not left behind for a
        source that was fenced throughout. `core` is the one bound, `listed` and `at` are
        the moments the index listed the binding and the binding stood; where the store
        turned a commit away, `at` is the moment it did. */
    method Commit(s: Settings, i: Identity, execution: Execution, decision: Miss)
      returns (r: Option<CommitResult>, ghost core: Option<Core>, ghost listed: World, ghost at: World)
      requires Valid()
      modifies this
      ensures Valid() && Grows(old(w), w)
      ensures r.None? <==> !ValidIdentity(i) || !Compatible(s, i, decision)
      ensures r.Some? ==> r.value.data == execution.data
      ensures r.Some? && r.value.stored ==>
                && (decision.disposition == Ordinary || decision.disposition == Refreshing) && !decision.cacheError
                && r.value.expiresAt.Some? && Within(r.value.expiresAt.value, BoundOf(s, i))
                && core.Some? && StoredBehind(w, core.value, old(log), log, s, i, decision.disposition == Refreshing,
                                              r.value.expiresAt.value)
      ensures r.Some? && r.value.stored ==> NotFencedThroughout(old(w), w, IndexOf(i))
      ensures WritesItsOwn(old(log), log, s, i, execution)
      ensures Grows(old(w), listed) && Grows(listed, at) && Grows(at, w)
      ensures r.Some? && r.value.stored ==>
                Indexed(listed, IndexOf(i), BindingOf(i), r.value.expiresAt.value) && StandsFor(at, i)
      ensures r.Some? && !r.value.stored ==>
                || !(decision.disposition == Ordinary || decision.disposition == Refreshing)
                || decision.cacheError || Ttl(s, i) <= 0
                || (if r.value.cacheError
                    then GaveUp(old(lost)) || Full(w, IndexOf(i), BindingOf(i))
                         || (withPayloads && Unstorable(execution.data))
                    else TurnedAway(at, i, decision))
      ensures r.Some? ==> (r.value.degraded <==> decision.disposition == Disabled)
      ensures r.Some? && (decision.cacheError || decision.disposition == Disabled || decision.disposition == Bypassed
                          || decision.disposition == WasRevoked || Ttl(s, i) <= 0) ==>
                !r.value.stored && r.value.cacheError == decision.cacheError && log == old(log)
    {
      hide WorldInv, Grows, Ttl;
      core, listed, at := None, w, w;
      GrowsReflexive(w);
      if !ValidIdentity(i) || !Compatible(s, i, decision) { return None, core, listed, at; }
      var skipped := CommitResult(execution.data, false, None, decision.disposition == Disabled, decision.cacheError);
      if decision.disposition == Bypassed || decision.disposition == Disabled || decision.disposition == WasRevoked
         || decision.cacheError {
        return Some(skipped), core, listed, at;
      }
      var ttl := Ttl(s, i);
      if ttl <= 0 { return Some(skipped), core, listed, at; }
      var stored;
      stored, core, listed, at := Store(s, i, execution, decision, ttl);
      r := Some(match stored
                case Threw => CommitResult(execution.data, false, None, false, true)
                case Answered(expiresAt) => CommitResult(execution.data, expiresAt.Some?, expiresAt, false, false));
    }

    /** Core, index, binding, and a last look at the index. */
    method Store(s: Settings, i: Identity, execution: Execution, decision: Miss, ttl: int)
      returns (r: Try<Option<int>>, ghost behind: Option<Core>, ghost listed: World, ghost at: World)
      requires Valid() && ValidIdentity(i) && ttl == Ttl(s, i) > 0
      requires decision.disposition == Refreshing || (decision.disposition == Ordinary && decision.fence.Some?)
      modifies this
      ensures Valid() && Grows(old(w), w)
      ensures r.Answered? && r.value.Some? ==>
                && Within(r.value.value, BoundOf(s, i)) && behind.Some?
                && StoredBehind(w, behind.value, old(log), log, s, i, decision.disposition == Refreshing, r.value.value)
      ensures r.Answered? && r.value.Some? ==> NotFencedThroughout(old(w), w, IndexOf(i))
      ensures WritesItsOwn(old(log), log, s, i, execution)
      ensures Grows(old(w), listed) && Grows(listed, at) && Grows(at, w)
      ensures r.Answered? && r.value.Some? ==>
                Indexed(listed, IndexOf(i), BindingOf(i), r.value.value) && StandsFor(at, i)
      ensures r.Threw? ==>
                || GaveUp(old(lost)) || Full(w, IndexOf(i), BindingOf(i))
                || (withPayloads && Unstorable(execution.data))
      ensures r == Answered(None) ==> TurnedAway(at, i, decision)
    {
      hide WorldInv, Grows, Ttl;
      var ks, k, ik := KeyString(i.key), BindingOf(i), IndexOf(i);
      var expiresAt := i.nowMs + ttl * 1000;
      TtlIsWithinBounds(s, i);
      behind, listed, at := None, w, w;
      ghost var w0 := w;
      GrowsReflexive(w);
      var payload := StorePayload(i.ownershipScope, ks, execution.data);
      ghost var w1 := w;
      listed, at := w1, w1;
      GrowsReflexive(w1);
      if payload.Threw? { return Threw, behind, listed, at; }
      var core := Core(i.key, ks, payload.value, execution.provenance, i.nowMs, expiresAt);
      assert MadeOf(core, s, i, execution);
      var placed := PlaceCore(core, decision.disposition == Refreshing, i.nowMs);
      ghost var w2 := w;
      GrowsTransitive(w0, w1, w2);
      if placed.Threw? { return Threw, behind, listed, at; }
      behind := Some(placed.value);
      r, listed, at := BindPlaced(s, i, core, placed.value, decision, Min(placed.value.expiresAt, expiresAt));
      GrowsTransitive(w0, w2, listed);
      GrowsTransitive(w2, listed, at);
      GrowsTransitive(w0, w2, at);
      GrowsTransitive(w0, w2, w);
      CommittedStays(w2, w);
      if r.Answered? && r.value.Some? && Fenced(w0, ik) { FencedSince(w0, w2, w, ik); }
    }

    /** Index, binding, and a last look at the index. */
    method BindPlaced(s: Settings, i: Identity, core: Core, of: Core, decision: Miss, expiresAt: int)
      returns (r: Try<Option<int>>, ghost listed: World, ghost at: World)
      requires Valid() && Bindable(w, s, i, of) && of.expiresAt > i.nowMs
      requires decision.disposition == Refreshing || (decision.disposition == Ordinary && decision.fence.Some?)
      modifies this
      ensures Valid() && Grows(old(w), w) && Grows(old(w), listed) && Grows(listed, at) && Grows(at, w)
      ensures r.Answered? && r.value.Some? ==>
                r.value.value == expiresAt && Indexed(listed, IndexOf(i), BindingOf(i), expiresAt) && StandsFor(at, i)
      ensures r.Answered? && r.value.Some? ==> NotFencedThroughout(old(w), w, IndexOf(i))
      ensures CoresWritten(log) == CoresWritten(old(log)) && lost >= old(lost)
      ensures r.Threw? ==> GaveUp(old(lost)) || Full(w, IndexOf(i), BindingOf(i))
      ensures r == Answered(None) ==> TurnedAway(at, i, decision)
    {
      hide WorldInv, Grows, Ttl;
      var k, ik := BindingOf(i), IndexOf(i);
      ghost var w2 := w;
      var ensured := EnsureSourceIndex(ik, k, i.nowMs, expiresAt);
      ghost var w3 := w;
      listed, at := w3, w3;
      GrowsReflexive(w3);
      if ensured.Threw? { return Threw, listed, at; }
      if !ensured.value {
        var dropped := DeleteUnusedPayload(core, of);
        GrowsTransitive(w2, w3, w);
        return if dropped then Answered(None) else Threw, listed, at;
      }
      CommittedStays(w2, w3);
      var bound;
      bound, at := Bind(s, i, of, decision);
      ghost var w4 := w;
      GrowsTransitive(w2, w3, w4);
      GrowsTransitive(w2, w3, at);
      if bound.Threw? || !bound.value { return if bound.Threw? then Threw else Answered(None), listed, at; }
      ghost var confirmed;
      r, confirmed := ConfirmUnfenced(i, expiresAt);
      at := if r == Answered(None) then confirmed else w4;
      GrowsReflexive(w4);
      GrowsTransitive(w2, w4, at);
      GrowsTransitive(w3, w4, at);
      GrowsTransitive(w2, w4, w);
      if r.Answered? && r.value.Some? && Fenced(w2, ik) { FencedSince(w2, w4, w, ik); }
    }

    method PlaceCore(core: Core, refresh: bool, nowMs: int) returns (r: Try<Core>)
      requires Valid() && CanCommit(core) && core.expiresAt > nowMs
      modifies this
      ensures Valid() && Grows(old(w), w)
      ensures r.Answered? ==> r.value in w.committed && r.value.keyString == core.keyString && r.value.expiresAt > nowMs
      ensures PlacedCore(old(log), log, core, refresh, nowMs, r)
      ensures lost >= old(lost) && (r.Threw? ==> GaveUp(old(lost)))
    {
      if refresh {
        r := ReplaceRecord(core, nowMs);
      } else {
        r := CreateCoreIfMissing(core, nowMs);
      }
    }

    method Bind(s: Settings, i: Identity, of: Core, decision: Miss) returns (r: Try<bool>, ghost at: World)
      requires Valid() && Bindable(w, s, i, of) && of.expiresAt > i.nowMs
      requires decision.disposition == Refreshing || (decision.disposition == Ordinary && decision.fence.Some?)
      modifies this
      ensures Valid() && Grows(old(w), w)
      ensures r == Answered(true) ==> StandsFor(w, i)
      ensures lost >= old(lost) && (r.Threw? ==> GaveUp(old(lost)))
      ensures Grows(old(w), at) && Grows(at, w)
      ensures r == Answered(false) ==> TurnedAway(at, i, decision)
      ensures CoresWritten(log) == CoresWritten(old(log))
    {
      hide Grows;
      GrowsReflexive(w);
      at := w;
      if decision.disposition == Refreshing {
        var ok := UpsertBinding(s, i, of);
        r := if ok then Answered(true) else Threw;
      } else {
        var stored, found := UpsertBindingFenced(s, i, of, decision.fence.value);
        r := stored;
        if r == Answered(false) {
          at := found;
          GrowsReflexive(found);
        }
      }
    }

    /** A binding written while its source was being revoked is revoked again. */
    method ConfirmUnfenced(i: Identity, expiresAt: int) returns (r: Try<Option<int>>, ghost at: World)
      requires Valid()
      modifies this
      ensures Valid() && Grows(old(w), w)
      ensures r.Answered? && r.value.Some? ==> r.value.value == expiresAt
      ensures Grows(old(w), at) && Grows(at, w) && (r == Answered(None) ==> Fenced(at, IndexOf(i)))
      ensures lost >= old(lost) && (r.Threw? ==> GaveUp(old(lost)))
      ensures CoresWritten(log) == CoresWritten(old(log))
      ensures r.Answered? && r.value.Some? ==> NotFencedThroughout(old(w), w, IndexOf(i))
    {
      hide WorldInv, Grows;
      ghost var w0 := w;
      Interfere();
      ghost var w1 := w;
      at := w1;
      GrowsReflexive(w1);
      if failing { return Threw, at; }
      if IndexOf(i) in w.indexes && w.indexes[IndexOf(i)].value.revoked {
        var revoked := RevokeBindingRecord(BindingOf(i), i.nowMs);
        GrowsTransitive(w0, w1, w);
        return if revoked.Threw? then Threw else Answered(None), at;
      }
      if Fenced(w0, IndexOf(i)) { FenceHolds(w0, w1, IndexOf(i)); }
      r := Answered(Some(expiresAt));
    }

    /** Cache faults never fail a request: for a valid identity there is always an answer,
        and it is the fresh execution or what some earlier commit stored under the key string. */
    method Process(s: Settings, i: Identity, execution: Execution, at: (nat, nat, nat))
      returns (r: Option<Answer>, ghost source: Option<Core>, ghost m: Reads)
      requires Valid() && at.0 < 3 && at.1 < 3 && at.2 < 3
      modifies this
      ensures Valid() && Grows(old(w), w)
      ensures r.None? <==> !ValidIdentity(i)
      ensures r.Some? && r.value.FromExecution? ==> r.value.commit.data == execution.data
      ensures r.Some? && r.value.FromCache? ==>
                r.value.result.Hit? && source.Some? && Backed(w, i, r.value.result, source.value)
      ensures r.Some? && r.value.FromCache? ==> NotFencedThroughout(old(w), w, IndexOf(i))
      ensures r.Some? && r.value.FromCache? ==>
                && Searches(s, i) && ReadDuring(old(w), m, w) && Answers(s, i, m, w, r.value.result)
                && DecidedRightly(m, i, Ttl(s, i), DecisionOf(m, i, Ttl(s, i)))
    {
      hide WorldInv, Grows;
      ghost var w0 := w;
      m := Reads(w, w, w);
      var found;
      found, source, m := Lookup(s, i, at);
      ghost var w1 := w;
      r := None;
      if found.None? { return; }
      if found.value.Hit? {
        r := Some(FromCache(found.value));
        return;
      }
      var committed, _, _, _ := Commit(s, i, execution, found.value.miss);
      GrowsTransitive(w0, w1, w);
      r := Some(FromExecution(committed.value));
    }

    // ---------------------------------------------------------------- revocation and sweeping

    /** Revoked: the source is fenced when the call returns, unless its index was disturbed
        during the call, and every binding the index listed was revoked or missing at some
        moment of it. The steps taken are those the revocation issues from the index record
        it read, so they touch no other source. */
    method RevokeAllSourceBindings(scope: string, source: string, nowMs: int)
      returns (r: Try<Revocation>, ghost read: Option<Index>, ghost moments: seq<World>)
      requires Valid()
      modifies this
      ensures Valid() && Grows(old(w), w)
      ensures IssuedOnly(old(log), log, IndexKey(scope, source), read)
      ensures read.Some? ==> WellFormed(IndexKey(scope, source), read.value)
      ensures r == Answered(BindingsRevoked) ==>
                && (Fenced(w, IndexKey(scope, source))
                    || Disturbances(w, IndexKey(scope, source)) > Disturbances(old(w), IndexKey(scope, source)))
                && read.Some? && |moments| == |read.value.bindingKeys|
                && forall n | 0 <= n < |moments| :: EndedAt(old(w), moments[n], w, read.value.bindingKeys[n])
    {
      hide WorldInv, Grows, WellFormed;
      read, moments := None, [];
      var ik := IndexKey(scope, source);
      if !(0 < |source| <= 1024) || !(0 < |scope| <= 2048) || !(0 < nowMs <= MAX_SAFE_INTEGER) {
        GrowsReflexive(w);
        r := Threw;
        return;
      }
      ghost var w0 := w;
      var listed;
      listed, read := TombstoneIndex(ik, nowMs);
      ghost var w1 := w;
      if listed.Threw? {
        r := Threw;
        return;
      }
      if listed.value.None? {
        r := Answered(BindingMissing);
        return;
      }
      GrowsReflexive(w1);
      r := Answered(BindingsRevoked);
      for n := 0 to |listed.value.value|
        invariant Valid() && Grows(w0, w) && Grows(w1, w) && Fenced(w1, ik) && r == Answered(BindingsRevoked)
        invariant read.Some? && read.value.bindingKeys == listed.value.value && |moments| == n
        invariant IssuedOnly(old(log), log, ik, read)
        invariant forall m | 0 <= m < n :: EndedAt(w0, moments[m], w, listed.value.value[m])
      {
        ghost var w2, before := w, log;
        var one := RevokeBindingRecord(listed.value.value[n], nowMs);
        GrowsTransitive(w0, w2, w);
        GrowsTransitive(w1, w2, w);
        IssuedFurther(old(log), before, log, ik, read, listed.value.value[n]);
        EndedStay(w0, moments, w2, w, listed.value.value);
        if one.Threw? {
          r := Threw;
          return;
        }
        GrowsReflexive(w);
        assert one.value.BindingsRevoked? || one.value.BindingMissing?;
        assert EndedAt(w0, w, w, listed.value.value[n]);
        ghost var more := moments + [w];
        forall m | 0 <= m < n + 1 ensures EndedAt(w0, more[m], w, listed.value.value[m]) {
          assert m < n ==> more[m] == moments[m];
        }
        moments := more;
      }
      if !Fenced(w, ik) {
        FenceHolds(w1, w, ik);
        DisturbancesGrow(w0, w1, ik);
      }
    }

    /** The bindings the index lists once its tombstone stands; None: there is no index. */
    method TombstoneIndex(ik: IndexKey, nowMs: int) returns (r: Try<Option<seq<BindingKey>>>, ghost read: Option<Index>)
      requires Valid()
      modifies this
      ensures Valid() && Grows(old(w), w)
      ensures read.Some? ==> WellFormed(ik, read.value)
      ensures IssuedOnly(old(log), log, ik, read)
      ensures r.Answered? && r.value.Some? ==> Fenced(w, ik) && read.Some? && r.value.value == read.value.bindingKeys
    {
      hide WorldInv, Grows, WellFormed;
      GrowsReflexive(w);
      read := None;
      for attempt := 0 to maxCasAttempts
        invariant Valid() && Grows(old(w), w) && log == old(log) && read.None?
      {
        ghost var w0 := w;
        Interfere();
        ghost var w1 := w;
        GrowsTransitive(old(w), w0, w1);
        if failing { return Threw, read; }
        if ik !in w.indexes { return Answered(None), read; }
        var record, lifetime := w.indexes[ik], w.sweptIndexes[ik];
        Reading(w1, ik);
        if record.value.ownershipScope != ik.scope || record.value.sourceIdentity != ik.source { return Threw, read; }
        if record.value.revoked { return Answered(Some(record.value.bindingKeys)), Some(record.value); }
        Interfere();
        ghost var w2 := w;
        GrowsTransitive(old(w), w1, w2);
        if failing { return Threw, read; }
        if ik !in w.indexes { return Answered(None), read; }
        if w.indexes[ik].revision == record.revision {
          ReadStays(w1, w2, ik);
          Step(RevokeIndex(ik, Seen(record.value, record.revision, lifetime)), nowMs);
          GrowsTransitive(old(w), w2, w);
          return Answered(Some(record.value.bindingKeys)), Some(record.value);
        }
      }
      r := Threw;
    }

    method RevokeSourceBinding(key: CacheKey, scope: string, source: string, nowMs: int) returns (r: Try<Revocation>)
      requires Valid()
      modifies this
      ensures Valid() && Grows(old(w), w)
      ensures r == Answered(BindingsRevoked) ==>
                var k := BindingKey(KeyString(key), scope, source);
                || Fenced(w, IndexKey(scope, source))
                || Disturbances(w, IndexKey(scope, source)) > Disturbances(old(w), IndexKey(scope, source))
                || (k in w.bindings && w.bindings[k].value.revoked)
    {
      hide WorldInv, Grows;
      GrowsReflexive(w);
      if scope != key.ownershipScope || !(0 < |source| <= 1024) || !(0 < nowMs <= MAX_SAFE_INTEGER) { return Threw; }
      ghost var w0 := w;
      var all, _, _ := RevokeAllSourceBindings(scope, source, nowMs);
      ghost var w1 := w;
      if all != Answered(BindingMissing) { return all; }
      if !ValidCacheKey(key) { return Threw; }
      r := RevokeBindingRecord(BindingKey(KeyString(key), scope, source), nowMs);
      GrowsTransitive(w0, w1, w);
    }

    /** Goes through a page in order until a call throws: `ends` says of each record gone
        through whether it was deleted, the steps taken are exactly those, and the deleted
        ones are counted. */
    method SweepExpiredPage(page: seq<SweepTarget>, nowMs: int) returns (removed: nat, ok: bool, ghost ends: seq<bool>)
      requires Valid()
      modifies this
      ensures Valid() && Grows(old(w), w)
      ensures |ends| <= |page| && (ok <==> |ends| == |page|) && removed == Deletions(ends)
      ensures old(log) + PageSteps(page, ends, withPayloads, nowMs) <= log
      ensures ok ==> log == old(log) + PageSteps(page, ends, withPayloads, nowMs)
    {
      hide WorldInv, Grows, SweepAction, Drops;
      GrowsReflexive(w);
      removed, ok, ends := 0, true, [];
      for n := 0 to |page|
        invariant Valid() && Grows(old(w), w) && |ends| == n && removed == Deletions(ends) && ok
        invariant log == old(log) + PageSteps(page, ends, withPayloads, nowMs)
      {
        ghost var w0 := w;
        var one, _ := SweepOne(page[n], nowMs);
        GrowsTransitive(old(w), w0, w);
        if one.Threw? {
          ok := false;
          return;
        }
        removed := removed + if one.value then 1 else 0;
        ghost var more := ends + [one.value];
        assert more[..n] == ends;
        ends := more;
      }
    }

    /** What is deleted is the record that was `found` at the revision scanned, and a core's
        blob is dropped before it; nothing else is done. */
    method SweepOne(target: SweepTarget, nowMs: int) returns (r: Try<bool>, ghost found: World)
      requires Valid()
      modifies this
      ensures Valid() && Grows(old(w), w) && Grows(old(w), found)
      ensures r.Answered? ==> log == old(log) + RecordSteps(target, r.value, withPayloads, nowMs)
      ensures r.Threw? ==> old(log) <= log
      ensures r == Answered(true) ==>
                Enabled(found, SweepAction(target), nowMs) && w == Next(found, SweepAction(target), nowMs)
      ensures r == Answered(false) ==> w == found
      ensures r == Answered(false) && Enabled(found, SweepAction(target), nowMs) ==>
                target.OfCore? && target.core.payload.InBlob? && !withPayloads
    {
      hide WorldInv, Grows;
      ghost var w0 := w;
      GrowsReflexive(w);
      found, r := w, Threw;
      if target.OfCore? && target.core.payload.InBlob? {
        if !withPayloads {
          r := Answered(false);
          return;
        }
        Interfere();
        ghost var w1 := w;
        if failing { return; }
        Step(DropBlob(target.core.payload.blob), nowMs);
        GrowsTransitive(w0, w1, w);
      }
      ghost var w2 := w;
      found := w;
      Interfere();
      GrowsTransitive(w0, w2, w);
      if failing { return; }
      found := w;
      var action := SweepAction(target);
      if !Enabled(w, action, nowMs) {
        r := Answered(false);
        return;
      }
      Step(action, nowMs);
      GrowsTransitive(w0, found, w);
      r := Answered(true);
    }
  }

  // ------------------------------------------------------------------ facts the methods use

  /** What going through one record does: the blob of a core, and the record if it goes. */
  function RecordSteps(t: SweepTarget, deleted: bool, withPayloads: bool, nowMs: int): seq<Event> {
    Drops(t, withPayloads, nowMs) + if deleted then [Event(SweepAction(t), nowMs)] else []
  }

  function PageSteps(page: seq<SweepTarget>, ends: seq<bool>, withPayloads: bool, nowMs: int): seq<Event>
    requires |ends| <= |page|
    decreases |ends|
  {
    if ends == [] then []
    else
      var last := |ends| - 1;
      PageSteps(page, ends[..last], withPayloads, nowMs) + RecordSteps(page[last], ends[last], withPayloads, nowMs)
  }

  function Deletions(ends: seq<bool>): nat {
    if ends == [] then 0 else Deletions(ends[..|ends| - 1]) + if ends[|ends| - 1] then 1 else 0
  }

  /** The blob of a swept core goes first. */
  function Drops(t: SweepTarget, withPayloads: bool, nowMs: int): seq<Event> {
    if t.OfCore? && t.core.payload.InBlob? && withPayloads then [Event(DropBlob(t.core.payload.blob), nowMs)] else []
  }

  function SweepAction(t: SweepTarget): Action {
    match t
    case OfCore(ks, _, expected) => SweepCore(ks, expected)
    case OfBinding(k, expected) => SweepBinding(k, expected)
    case OfIndex(ik, expected) => SweepIndex(ik, expected)
  }

  /** `validateCommitDisposition`: the decision is one a lookup of this request could give. */
  predicate Compatible(s: Settings, i: Identity, m: Miss) {
    var resolved := ResolveMode(i.mode, s);
    && (if resolved.degraded then m.disposition == Disabled
        else if Excluded(i) || resolved.mode == Bypass then m.disposition == Bypassed
        else if resolved.mode == Refresh then m.disposition == Refreshing
        else m.disposition == Ordinary || m.disposition == WasRevoked)
    && (m.cacheError ==> m.disposition == Ordinary)
    && (m.disposition == Ordinary && !m.cacheError ==> m.fence.Some?)
  }

  function HitOf(core: Core, data: string, nowMs: int): Try<LookupResult> {
    if !core.provenance.isOriginal || core.expiresAt <= core.createdAt then Threw
    else Answered(Hit(data, core.createdAt, core.expiresAt, Max(0, (nowMs - core.createdAt) / 1000)))
  }

  lemma HitIsBacked(w: World, i: Identity, core: Core, r: Try<LookupResult>)
    requires r == HitOf(core, DataOf(core), i.nowMs)
    requires core in w.committed && core.keyString == KeyString(i.key) && core.expiresAt > i.nowMs
    ensures r.Answered? ==> r.value.Hit? && Backed(w, i, r.value, core)
  {
  }

  /** The core behind a stored commit: this worker wrote it, or found it live and was not to
      replace it; the binding ends with it or with the request's own time to live. */
  ghost predicate StoredBehind(w: World, c: Core, before: seq<Event>, after: seq<Event>, s: Settings, i: Identity,
          refresh: bool, expiresAt: int)
  {
    && c in w.committed && c.keyString == KeyString(i.key)
    && expiresAt == Min(c.expiresAt, i.nowMs + Ttl(s, i) * 1000)
    && (CoresWritten(after) == CoresWritten(before) + [c]
        || (!refresh && CoresWritten(after) == CoresWritten(before) && c.expiresAt > i.nowMs))
  }

  /** Every step added to the log is one the revocation issues from the record it read. */
  ghost predicate IssuedOnly(before: seq<Event>, after: seq<Event>, ik: IndexKey, read: Option<Index>) {
    && |before| <= |after| && after[..|before|] == before
    && forall n | |before| <= n < |after| :: IssuedFrom(ik, read, after[n].action)
  }

  predicate IssuedFrom(ik: IndexKey, read: Option<Index>, a: Action) { read.Some? && Issues(ik, read.value, a) }

  lemma IssuedFurther(first: seq<Event>, before: seq<Event>, after: seq<Event>, ik: IndexKey, read: Option<Index>,
          k: BindingKey)
    requires IssuedOnly(first, before, ik, read) && read.Some? && k in read.value.bindingKeys
    requires after == before || exists e: Event :: after == before + [e] && e.action.RevokeBinding? && e.action.at == k
    ensures IssuedOnly(first, after, ik, read)
  {
    forall n | |first| <= n < |after| ensures IssuedFrom(ik, read, after[n].action) {
      if n < |before| { assert after[n] == before[n]; }
    }
  }

  /** At this moment of the call the binding was revoked, or there was none. */
  ghost predicate EndedAt(w0: World, m: World, w1: World, k: BindingKey) {
    Grows(w0, m) && Grows(m, w1) && (k in m.bindings ==> m.bindings[k].value.revoked)
  }

  lemma EndedStay(w0: World, moments: seq<World>, w1: World, w2: World, keys: seq<BindingKey>)
    requires Grows(w1, w2) && |moments| <= |keys| && forall m | 0 <= m < |moments| ::
               EndedAt(w0, moments[m], w1, keys[m])
    ensures forall m | 0 <= m < |moments| :: EndedAt(w0, moments[m], w2, keys[m])
  {
    hide Grows;
    forall m | 0 <= m < |moments| ensures EndedAt(w0, moments[m], w2, keys[m]) {
      assert EndedAt(w0, moments[m], w1, keys[m]);
      GrowsTransitive(moments[m], w1, w2);
    }
  }

  lemma DisturbancesGrow(w: World, w': World, ik: IndexKey)
    requires Grows(w, w')
    ensures Disturbances(w, ik) <= Disturbances(w', ik)
  {
  }

  /** Fenced at the start, and disturbed at the latest after the middle. */
  lemma FencedSince(w0: World, w1: World, w2: World, ik: IndexKey)
    requires Grows(w0, w1) && Grows(w1, w2) && Fenced(w0, ik)
    requires Fenced(w1, ik) ==> Disturbances(w2, ik) > Disturbances(w1, ik)
    ensures Disturbances(w2, ik) > Disturbances(w0, ik)
  {
    DisturbancesGrow(w0, w1, ik);
    if !Fenced(w1, ik) { FenceHeldUntil(w0, w1, w2, ik); }
  }

  lemma BindingAddressed(w: World, k: BindingKey)
    requires WorldInv(w) && k in w.bindings
    ensures Addressed(k, w.bindings[k].value)
  {
    assert BindingInv(w, k);
  }

  /** A committed core a request may bind to. */
  predicate Bindable(w: World, s: Settings, i: Identity, of: Core) {
    of in w.committed && of.keyString == KeyString(i.key) && Ttl(s, i) > 0
  }

  /** What an ordinary commit's fence lets it write over. */
  predicate WroteOver(w: World, k: BindingKey, expected: Option<nat>) {
    if expected.None? then k !in w.bindings else k in w.bindings && w.bindings[k].revision == expected.value
  }

  lemma CommittedStays(w: World, w': World)
    requires Grows(w, w')
    ensures w.committed <= w'.committed
  {
  }

  lemma CommitStep(w: World, core: Core, nowMs: int)
    requires CanCommit(core)
    ensures Enabled(w, WriteCore(core), nowMs) && core in Next(w, WriteCore(core), nowMs).committed
  {
  }

  lemma StoredCore(w: World, ks: string)
    requires WorldInv(w) && ks in w.cores
    ensures var c := w.cores[ks].value; c.keyString == ks && c in w.committed && CanCommit(c)
  {
  }
}
