/** `DurableDocumentOutputRuntime` (src/core/durable-document-output.ts): immutable
    outputs with reservations, compensation, deletion and the revocation of everything
    derived from an external source. The clock and the abort signal are fields other
    workers may change; answers of ports this model does not contain are arguments. */
module DocumentOutput {
  import opened Basics
  import opened DurableStore
  import A = Artifacts
  import R = Reservations
  import D = ArtifactRepository
  import S = OutputStack
  import opened OutputRecovery
  import opened OutputStores

  datatype Recovery = Recovery(refId: RefId, ready: bool)

  /** What the source authority says of an external source; None is a refusal. */
  datatype Authority = Authority(first: Option<(int, A.Digest)>, second: Option<(int, A.Digest)>)

  /** What the blob store answers: conflicts and owner mismatches, and the bytes it serves. */
  datatype Blobs = Blobs(
    sourceConflict: bool, outputConflict: bool, mismatch: bool, outputBytes: Option<string>,
    sourceBytes: Option<string>)

  datatype SaveInput = SaveInput(
    caller: Caller, sourceBytes: string, mimeType: string, filename: string, payload: string,
    sourceExpiresAt: Option<int>, externalSourceRef: Option<string>, operationKey: Option<string>,
    sourceUuid: string, outputUuid: string)

  const MAX_IMMUTABLE_BLOB_BYTES := 33554432

  function FingerprintOf(i: SaveInput): R.Fingerprint {
    R.Fingerprint(A.Hash(i.sourceBytes), A.Hash(i.payload), i.mimeType, i.filename, i.externalSourceRef,
                  i.sourceExpiresAt)
  }

  function OutputRef(i: SaveInput): RefId {
    if i.operationKey.Some? then A.OperationOutput(i.caller, i.operationKey.value) else A.Art(i.outputUuid)
  }

  function SourceRef(i: SaveInput): RefId {
    if i.operationKey.Some? then A.OperationSource(i.caller, i.operationKey.value) else A.Art(i.sourceUuid)
  }

  /** The reservation stands published and not revoked. */
  predicate Standing(w: R.World, ref: RefId) {
    ref in w.records && w.records[ref].value.published && !w.records[ref].value.revoked
  }

  lemma RevocationHolds(w0: R.World, w1: R.World, w2: R.World, ref: RefId)
    requires R.Grows(w0, w1) && R.Grows(w1, w2) && Revoked(w0, ref) && !Revoked(w1, ref)
    ensures R.Disturbances(w2, ref) > R.Disturbances(w0, ref)
  {
  }

  /** A reservation was made under these terms when the record had been disturbed `n` times,
      and they are the record's for as long as it is not disturbed again. */
  predicate HoldsTerms(w: R.World, ref: RefId, t: R.Terms, n: nat) {
    && t.ref == ref && t in w.granted && n <= R.Disturbances(w, ref)
    && (n == R.Disturbances(w, ref) ==> ref in w.records && R.TermsOf(ref, w.records[ref].value) == t)
  }

  lemma TermsStay(w: R.World, w': R.World, ref: RefId, t: R.Terms, n: nat)
    requires HoldsTerms(w, ref, t, n) && R.Grows(w, w')
    ensures HoldsTerms(w', ref, t, n)
  {
    assert w.swept[ref] <= w'.swept[ref] && w.stale[ref] <= w'.stale[ref];
  }

  lemma ClaimIsGood(w: R.World, w': R.World, ref: RefId, c: R.Claim)
    requires HoldsTerms(w, ref, c.terms, c.disturbances) && HoldsTerms(w', ref, c.terms, c.disturbances)
    requires R.Grows(w, w') && R.PlacedFor(c.terms, c.placement)
    requires ref in w.records && ref in w'.records && w'.records[ref].revision == w.records[ref].revision
    ensures R.Claims(w', ref, w.records[ref].value, c)
  {
    assert w.swept[ref] <= w'.swept[ref] && w.stale[ref] <= w'.stale[ref];
  }

  lemma GrantedHere(w: R.World, ref: RefId)
    requires R.WorldInv(w) && ref in w.records
    ensures R.TermsOf(ref, w.records[ref].value) in w.granted
  {
  }

  lemma ReadCanSwap(w: R.World, w': R.World, ref: RefId)
    requires R.WorldInv(w) && R.Grows(w, w') && ref in w.records && !w.records[ref].value.revoked
    requires ref in w'.records && w'.records[ref].revision == w.records[ref].revision
    ensures R.CanSwap(w', ref, R.Seen(w.records[ref].value, w.records[ref].revision, w.swept[ref]))
  {
  }

  lemma StillInPlace(w: R.World, s: S.Slot, s': S.Slot)
    requires InPlace(w, s) && S.Grows(s, s')
    ensures InPlace(w, s')
  {
    hide S.Evolves;
  }

  class DurableDocumentOutputRuntime {
    const repository: D.DurableArtifactRepository
    const ttlSeconds: int
    var intents: R.World
    var clock: int
    var aborted: bool
    ghost var observed: seq<Observed>  // the looks and reads of recoveries so far

    constructor(repository: D.DurableArtifactRepository, ttlSeconds: int)
      requires 0 < ttlSeconds <= 2592000
      ensures R.WorldInv(intents) && this.repository == repository
    {
      this.repository := repository;
      this.ttlSeconds := ttlSeconds;
      intents := R.EMPTY;
      clock := 0;
      aborted := false;
      observed := [];
    }

    ghost predicate Valid() reads this, repository {
      R.WorldInv(intents) && repository.Valid() && InPlace(intents, repository.s)
    }

    /** Time passes, and the caller may cancel, while a call is awaited. */
    method Wait()
      modifies this`clock, this`aborted
    {
    }

    /** Any steps of the other workers on both stores, and the caller may cancel. */
    method Interfere()
      requires Valid()
      modifies this, repository
      ensures Valid() && R.Grows(old(intents), intents) && S.Grows(old(repository.s), repository.s)
      ensures observed == old(observed)
    {
      R.GrowsReflexive(intents);
      repository.GrowsHere();
    }

    method Step(a: R.Action, nowMs: int)
      requires Valid() && R.Enabled(intents, a, nowMs)
      requires a.Publish? ==> Stored(a.claim.placement, repository.s) && Registered(a.claim.placement, repository.s)
      modifies this`intents
      ensures Valid() && intents == R.Next(old(intents), a, nowMs) && R.Grows(old(intents), intents)
    {
      hide S.SlotInv, R.Grows, R.WorldInv, R.Claims, R.CanSwap, Stored, Registered;
      R.StepKeepsInv(intents, a, nowMs);
      intents := R.Next(intents, a, nowMs);
    }

    // ---------------------------------------------------------------- reservations

    method ReadIntent(ref: RefId) returns (r: Option<Record<R.Intent>>)
      requires Valid()
      modifies this, repository
      ensures Valid() && R.Grows(old(intents), intents) && S.Grows(old(repository.s), repository.s)
      ensures observed == old(observed)
      ensures ref.OperationOutput? ==> r == if ref in intents.records then Some(intents.records[ref]) else None
      ensures !ref.OperationOutput? ==> r.None?
    {
      hide R.Grows, R.WorldInv, S.Evolves, S.SlotInv;
      Interfere();
      r := if ref.OperationOutput? && ref in intents.records then Some(intents.records[ref]) else None;
    }

    /** One reservation per operation: whoever reserves gets the record of the first, and
        only if it is for the very same save. */
    method Reserve(input: SaveInput, nowMs: int, expiresAt: int, limits: R.Limits) returns (r: Try<R.Intent>)
      requires Valid() && input.operationKey.Some?
      requires R.Lawful(R.Terms(OutputRef(input), input.caller, FingerprintOf(input), nowMs, expiresAt), limits)
      modifies this, repository
      ensures Valid() && R.Grows(old(intents), intents) && S.Grows(old(repository.s), repository.s)
      ensures r.Answered? ==>
                && OutputRef(input) in intents.records && intents.records[OutputRef(input)].value == r.value
                && r.value.fingerprint == FingerprintOf(input) && r.value.owner == input.caller
                && R.TermsOf(OutputRef(input), r.value) in intents.granted
    {
      hide R.Grows, R.WorldInv, S.Evolves, S.SlotInv, R.Lawful;
      R.GrowsReflexive(intents);
      repository.GrowsHere();
      if !(1 <= |input.operationKey.value| <= 256) { return Threw; }
      var ref := OutputRef(input);
      var value := R.Intent(input.caller, FingerprintOf(input), nowMs, expiresAt, false, false);
      ghost var w0 := intents;
      Interfere();
      ghost var w1 := intents;
      if ref !in intents.records {
        Step(R.Reserve(ref, value, limits), nowMs);
        R.GrowsTransitive(w0, w1, intents);
        return Answered(value);
      }
      GrantedHere(intents, ref);
      var stored := intents.records[ref].value;
      r := if stored.fingerprint == value.fingerprint && stored.owner == value.owner then Answered(stored) else Threw;
    }

    method RevokeIntent(ref: RefId) returns (ok: bool)
      requires Valid()
      modifies this, repository
      ensures Valid() && R.Grows(old(intents), intents) && S.Grows(old(repository.s), repository.s)
      ensures ok ==> Revoked(intents, ref)
    {
      hide R.Grows, R.WorldInv, S.Evolves, S.SlotInv;
      R.GrowsReflexive(intents);
      repository.GrowsHere();
      for count := 0 to 16
        invariant Valid() && R.Grows(old(intents), intents) && S.Grows(old(repository.s), repository.s)
      {
        ghost var w0, s0 := intents, repository.s;
        Interfere();
        ghost var w1, s1 := intents, repository.s;
        R.GrowsTransitive(old(intents), w0, w1);
        S.GrowsTransitive(old(repository.s), s0, s1);
        if ref !in intents.records { return false; }
        var record, lifetime := intents.records[ref], intents.swept[ref];
        if record.value.revoked { return true; }
        var nowMs := clock;
        Interfere();
        ghost var w2 := intents;
        R.GrowsTransitive(old(intents), w1, w2);
        S.GrowsTransitive(old(repository.s), s1, repository.s);
        if ref in intents.records && intents.records[ref].revision == record.revision {
          ReadCanSwap(w1, w2, ref);
          Step(R.Revoke(ref, R.Seen(record.value, record.revision, lifetime)), nowMs);
          R.GrowsTransitive(old(intents), w2, intents);
          return true;
        }
      }
      ok := false;
    }

    /** `claim` is what the publisher holds: the terms it reserved under and the artifacts it
        has stored for them. */
    method PublishIntent(ref: RefId, claim: R.Claim) returns (ok: bool)
      requires Valid() && HoldsTerms(intents, ref, claim.terms, claim.disturbances)
      requires R.PlacedFor(claim.terms, claim.placement)
      requires Stored(claim.placement, repository.s) && Registered(claim.placement, repository.s)
      modifies this, repository
      ensures Valid() && R.Grows(old(intents), intents) && S.Grows(old(repository.s), repository.s)
      ensures ok ==> Standing(intents, ref)
    {
      hide R.Grows, R.WorldInv, S.Evolves, S.SlotInv, HoldsTerms, R.PlacedFor;
      R.GrowsReflexive(intents);
      repository.GrowsHere();
      for count := 0 to 16
        invariant Valid() && R.Grows(old(intents), intents) && S.Grows(old(repository.s), repository.s)
        invariant HoldsTerms(intents, ref, claim.terms, claim.disturbances)
        invariant Stored(claim.placement, repository.s) && Registered(claim.placement, repository.s)
      {
        ghost var w0, s0 := intents, repository.s;
        Interfere();
        ghost var w1, s1 := intents, repository.s;
        R.GrowsTransitive(old(intents), w0, w1);
        S.GrowsTransitive(old(repository.s), s0, s1);
        TermsStay(w0, w1, ref, claim.terms, claim.disturbances);
        if ref !in intents.records { return false; }
        var record, lifetime := intents.records[ref], intents.swept[ref];
        if record.value.revoked { return false; }
        if record.value.published { return true; }
        var nowMs := clock;
        Interfere();
        ghost var w2 := intents;
        R.GrowsTransitive(old(intents), w1, w2);
        S.GrowsTransitive(old(repository.s), s1, repository.s);
        TermsStay(w1, w2, ref, claim.terms, claim.disturbances);
        if ref in intents.records && intents.records[ref].revision == record.revision {
          ReadCanSwap(w1, w2, ref);
          ClaimIsGood(w1, w2, ref, claim);
          Step(R.Publish(ref, R.Seen(record.value, record.revision, lifetime), claim), nowMs);
          R.GrowsTransitive(old(intents), w2, intents);
          return true;
        }
      }
      ok := false;
    }

    /** One record of an expired-reservation page: deleted by the revision the scan saw. */
    method SweepIntent(ref: RefId, scanned: Record<R.Intent>, nowMs: int) returns (gone: bool)
      requires Valid()
      modifies this, repository
      ensures Valid() && R.Grows(old(intents), intents) && S.Grows(old(repository.s), repository.s)
      ensures gone ==> scanned.value.expiresAt <= nowMs && ref !in intents.records
    {
      hide R.Grows, R.WorldInv, S.Evolves, S.SlotInv;
      R.GrowsReflexive(intents);
      repository.GrowsHere();
      if scanned.value.expiresAt > nowMs { return false; }
      ghost var w0 := intents;
      Interfere();
      ghost var w1 := intents;
      if ref !in intents.records { return true; }
      if intents.records[ref].revision != scanned.revision { return false; }
      Step(R.Sweep(ref, scanned.revision), nowMs);
      R.GrowsTransitive(w0, w1, intents);
      gone := true;
    }

    // ---------------------------------------------------------------- external sources

    /** Active at the authority between two looks at the tombstone; otherwise unavailable, or
        cancelled, exactly as what was found says. */
    method AssertExternalSource(me: nat, answer: Option<(int, A.Digest)>)
      returns (r: Try<Option<(int, A.Digest)>>, ghost at: Asked)
      requires repository.Valid()
      modifies this`clock, this`aborted, repository
      ensures repository.Valid() && S.Grows(old(repository.s), repository.s)
      ensures r == Vouched(at, answer) && AskedBetween(old(repository.s), at, repository.s)
      ensures r.Answered? && r.value.Some? ==> r.value == answer && !Tombstoned(repository.s) && r.value.value.0 > clock
    {
      hide S.SlotInv, S.Evolves;
      repository.GrowsHere();
      at := Asked(aborted, repository.s, false, repository.s, 0);
      if aborted { return Threw, at; }
      ghost var s0 := repository.s;
      var revoked := repository.IsExternalSourceRevoked(me);
      D.HeadStays(me, s0, repository.s);
      Wait();
      ghost var s1 := repository.s;
      repository.GrowsHere();
      at := Asked(false, s1, aborted, s1, 0);
      if revoked || answer.None? { return Answered(None), at; }
      if aborted { return Threw, at; }
      revoked := repository.IsExternalSourceRevoked(me);
      D.HeadStays(me, s1, repository.s);
      S.GrowsTransitive(s0, s1, repository.s);
      repository.GrowsHere();
      Wait();
      at := Asked(false, s1, false, repository.s, clock);
      if revoked || answer.value.0 <= clock { return Answered(None), at; }
      r := Answered(answer);
    }

    // ---------------------------------------------------------------- artifacts of one output

    /** The record after revocation, whoever revoked it; None: there is none. */
    method RevokeRef(ref: RefId, caller: Caller) returns (r: Try<Option<Record<A.Meta>>>)
      requires repository.Valid()
      modifies repository
      ensures repository.Valid() && S.Grows(old(repository.s), repository.s)
      ensures r == Answered(None) <==> ref !in repository.s.artifacts.records
      ensures r.Answered? && r.value.Some? ==>
                RevokedRecord(repository.s, ref, caller) && repository.s.artifacts.records[ref] == r.value.value
    {
      hide S.Evolves, S.SlotInv;
      repository.GrowsHere();
      for attempt := 0 to 4
        invariant repository.Valid() && S.Grows(old(repository.s), repository.s)
        invariant attempt > 0 ==> ref in repository.s.artifacts.records
      {
        ghost var s0 := repository.s;
        var current, _ := repository.GetForCaller(ref, caller);
        ghost var s1 := repository.s;
        S.GrowsTransitive(old(repository.s), s0, s1);
        if current.Threw? { return Threw; }
        if current.value.None? { return Answered(None); }
        if current.value.value.value.status != A.Active { return Answered(current.value); }
        var result := repository.DeleteExplicit(ref, caller, current.value.value.revision, clock);
        S.GrowsTransitive(old(repository.s), s1, repository.s);
        if result.Threw? { return Threw; }
        if result.value.Missing? { return Answered(None); }
        if result.value.Updated? { return Answered(Some(result.value.record)); }
      }
      r := Threw;
    }

    /** True exactly when the record is gone on return. */
    method CleanupRef(ref: RefId, record: Record<A.Meta>, caller: Caller, mismatch: bool) returns (r: Try<bool>)
      requires repository.Valid()
      modifies repository
      ensures repository.Valid() && S.Grows(old(repository.s), repository.s)
      ensures r == Answered(true) <==> ref !in repository.s.artifacts.records
    {
      hide S.Evolves, S.SlotInv;
      repository.GrowsHere();
      ghost var s0 := repository.s;
      var pending := record;
      if pending.value.status != A.PhysicalCleanupPending {
        var result := repository.MarkCleanupPending(ref, caller, pending.revision, clock);
        if result.Threw? { return Threw; }
        if result.value.Missing? { return Answered(true); }
        if !result.value.Updated? { return Answered(false); }
        pending := result.value.record;
      }
      ghost var s1 := repository.s;
      var cleaned := repository.CleanupPending(ref, caller, pending.revision, mismatch);
      S.GrowsTransitive(s0, s1, repository.s);
      r := if cleaned.Threw? then Threw else Answered(cleaned.value == D.Deleted || cleaned.value == D.CleanupMissing);
    }

    /** Revoke and clean one reference: true exactly when it is gone on return, and then
        the edge that led here is noted as gone. */
    method RemoveRef(me: nat, ref: RefId, caller: Caller, mismatch: bool, edge: Option<S.EdgeId>) returns (r: Try<bool>)
      requires repository.Valid() && LeadsTo(repository.s, edge, ref)
      modifies repository
      ensures repository.Valid() && S.Grows(old(repository.s), repository.s)
      ensures r == Answered(true) <==> ref !in repository.s.artifacts.records
      ensures r == Answered(true) ==> Noted(repository.s, edge)
    {
      hide S.Evolves, S.SlotInv;
      ghost var s0 := repository.s;
      var record := RevokeRef(ref, caller);
      ghost var s1 := repository.s;
      if record.Threw? { return Threw; }
      if record.value.None? {
        r := Answered(true);
      } else {
        r := CleanupRef(ref, record.value.value, caller, mismatch);
        S.GrowsTransitive(s0, s1, repository.s);
      }
      ghost var s2 := repository.s;
      if r == Answered(true) {
        NoteIfLed(me, ref, edge, s0);
        S.GrowsTransitive(s0, s2, repository.s);
      }
    }

    method NoteIfLed(me: nat, ref: RefId, edge: Option<S.EdgeId>, ghost s0: S.Slot)
      requires repository.Valid() && LeadsTo(s0, edge, ref) && S.Grows(s0, repository.s)
               && ref !in repository.s.artifacts.records
      modifies repository
      ensures repository.Valid() && S.Grows(old(repository.s), repository.s)
      ensures repository.s.artifacts == old(repository.s).artifacts && Noted(repository.s, edge)
    {
      hide S.Evolves, S.SlotInv;
      repository.GrowsHere();
      if edge.Some? {
        S.MadeStays(s0, repository.s, edge.value);
        repository.NoteGone(me, edge.value, clock);
      }
    }

    /** Deletion, step by step as `trail` tells it: a reservation is revoked before its two
        artifacts are removed; without one the source goes before the canonical record.
        Nothing pending means exactly that each was gone when it was its turn. */
    method Delete(me: nat, ref: RefId, caller: Caller, mismatch: bool, heedsAbort: bool, edge: Option<S.EdgeId>)
      returns (r: Try<bool>, ghost trail: Trail)
      requires Valid() && LeadsTo(repository.s, edge, ref)
      modifies this, repository
      ensures Valid() && R.Grows(old(intents), intents) && S.Grows(old(repository.s), repository.s)
      ensures r.Answered? ==>
                Followed(trail, ref, caller, r.value, old(intents), intents, old(repository.s), repository.s)
      ensures r == Answered(false) ==> Noted(repository.s, edge)
    {
      hide R.Grows, R.WorldInv, S.Evolves, S.SlotInv, RevokedRecord;
      ghost var i0, s0 := intents, repository.s;
      trail := Stopped;
      repository.GrowsHere();
      R.GrowsReflexive(i0);
      if heedsAbort && aborted { return Threw, trail; }
      var intent := ReadIntent(ref);
      ghost var i1, s1 := intents, repository.s;
      EdgeStillLeads(s0, s1, edge, ref);
      if intent.None? {
        r, trail := DeleteUnreserved(me, ref, caller, mismatch, heedsAbort, edge);
        S.GrowsTransitive(s0, s1, repository.s);
        if r.Answered? { FollowedEarlier(trail, ref, caller, r.value, i0, i1, intents, s0, s1, repository.s); }
        return;
      }
      if intent.value.value.owner != caller { return Threw, trail; }
      var revoked := RevokeIntent(ref);
      ghost var s2 := repository.s;
      R.GrowsTransitive(i0, i1, intents);
      S.GrowsTransitive(s0, s1, s2);
      EdgeStillLeads(s0, s2, edge, ref);
      if !revoked { return Threw, trail; }
      R.GrowsReflexive(intents);
      var output := RemoveRef(me, ref, caller, mismatch, edge);
      ghost var s3 := repository.s;
      var source := RemoveRef(me, A.OperationSource(ref.caller, ref.operationKey), caller, mismatch, None);
      S.GrowsTransitive(s0, s2, s3);
      S.GrowsTransitive(s0, s3, repository.s);
      repository.GrowsHere();
      if output == Answered(true) { NotedStays(s3, repository.s, edge); }
      r, trail := Answered(output != Answered(true) || source != Answered(true)), Reserved(intents, s3, repository.s);
    }

    /** The canonical record is kept until its source is gone, so a retry finds both. */
    method DeleteUnreserved(me: nat, ref: RefId, caller: Caller, mismatch: bool, heedsAbort: bool,
            edge: Option<S.EdgeId>)
      returns (r: Try<bool>, ghost trail: Trail)
      requires Valid() && LeadsTo(repository.s, edge, ref) && Unreserved(intents, ref)
      modifies this`clock, this`aborted, repository
      ensures Valid() && S.Grows(old(repository.s), repository.s)
      ensures r.Answered? ==> Followed(trail, ref, caller, r.value, intents, intents, old(repository.s), repository.s)
      ensures r == Answered(false) ==> Noted(repository.s, edge)
    {
      hide R.Grows, R.WorldInv, S.Evolves, S.SlotInv;
      R.GrowsReflexive(intents);
      ghost var s0 := repository.s;
      trail := Stopped;
      var current, _ := repository.GetForCaller(ref, caller);
      Wait();
      ghost var s1 := repository.s;
      if current.Threw? || (heedsAbort && aborted) { return Threw, trail; }
      if current.value.None? {
        NoteIfLed(me, ref, edge, s0);
        S.GrowsTransitive(s0, s1, repository.s);
        return Answered(false), Absent(intents, s1);
      }
      if !current.value.value.value.details.Canonical? { return Threw, trail; }
      var output := RevokeRef(ref, caller);
      Wait();
      ghost var s2 := repository.s;
      S.GrowsTransitive(s0, s1, s2);
      if output.Threw? || (heedsAbort && aborted) { return Threw, trail; }
      if output.value.None? {
        NoteIfLed(me, ref, edge, s0);
        S.GrowsTransitive(s0, s2, repository.s);
        return Answered(false), Absent(intents, s2);
      }
      if !output.value.value.value.details.Canonical? { return Threw, trail; }
      r, trail := DeleteRecorded(me, ref, output.value.value, caller, mismatch, heedsAbort, edge, s0);
      S.GrowsTransitive(s0, s2, repository.s);
    }

    method DeleteRecorded(me: nat, ref: RefId, output: Record<A.Meta>, caller: Caller, mismatch: bool, heedsAbort: bool,
            edge: Option<S.EdgeId>, ghost s0: S.Slot)
      returns (r: Try<bool>, ghost trail: Trail)
      requires repository.Valid() && S.SlotInv(s0) && S.Grows(s0, repository.s) && LeadsTo(s0, edge, ref)
               && Unreserved(intents, ref)
      requires RevokedRecord(repository.s, ref, caller) && repository.s.artifacts.records[ref] == output
               && output.value.details.Canonical?
      modifies this`clock, this`aborted, repository
      ensures repository.Valid() && S.Grows(old(repository.s), repository.s)
      ensures r.Answered? ==> Followed(trail, ref, caller, r.value, intents, intents, s0, repository.s)
      ensures r == Answered(false) ==> Noted(repository.s, edge)
    {
      hide R.Grows, R.WorldInv, S.Evolves, S.SlotInv;
      R.GrowsReflexive(intents);
      ghost var s2 := repository.s;
      trail := Stopped;
      var sourceRef := output.value.details.sourceRefId;
      var source := RevokeRef(sourceRef, caller);
      Wait();
      ghost var s3 := repository.s;
      repository.GrowsHere();
      if source.Threw? { return Answered(true), Recorded(intents, s2, s3, s3); }
      if heedsAbort && aborted { return Threw, trail; }
      if source.value.Some? {
        var removed := CleanupRef(sourceRef, source.value.value, caller, mismatch);
        Wait();
        S.GrowsTransitive(s2, s3, repository.s);
        s3 := repository.s;
        repository.GrowsHere();
        if removed != Answered(true) { return Answered(true), Recorded(intents, s2, s3, s3); }
        if heedsAbort && aborted { return Threw, trail; }
      }
      var cleaned := CleanupRef(ref, output, caller, mismatch);
      ghost var s4 := repository.s;
      S.GrowsTransitive(s2, s3, s4);
      if cleaned == Answered(true) {
        S.GrowsTransitive(s0, s2, s4);
        NoteIfLed(me, ref, edge, s0);
      } else {
        repository.GrowsHere();
      }
      S.GrowsTransitive(s2, s4, repository.s);
      Wait();
      if heedsAbort && aborted { return Threw, trail; }
      r, trail := Answered(cleaned != Answered(true)), Recorded(intents, s2, s3, s4);
    }

    /** An answer means the source is tombstoned for good; nothing pending, that every output
        ever registered for it has been absent at some moment since its registration. */
    method RevokeExternalSource(me: nat, caller: Caller, mismatch: bool) returns (r: Try<bool>)
      requires Valid()
      modifies this, repository
      ensures Valid() && S.Grows(old(repository.s), repository.s)
      ensures r.Answered? ==> Tombstoned(repository.s)
      ensures r == Answered(false) ==> repository.s.registered <= repository.s.gone
    {
      hide R.Grows, R.WorldInv, S.SlotInv, S.Evolves;
      repository.GrowsHere();
      if aborted { return Threw; }
      for count := 0 to 100
        invariant Valid() && S.Grows(old(repository.s), repository.s)
        invariant count > 0 ==> Tombstoned(repository.s)
      {
        ghost var s0 := repository.s;
        var next := repository.NextRevokedExternalOutput(me, clock);
        ghost var s1 := repository.s;
        S.GrowsTransitive(old(repository.s), s0, s1);
        if next.Threw? { return Threw; }
        if next.value.None? { return Answered(false); }
        if aborted { return Threw; }
        var edge, ref := next.value.value.0, next.value.value.1;
        var pending, _ := Delete(me, ref, caller, mismatch, true, Some(edge));
        ghost var s2 := repository.s;
        S.GrowsTransitive(old(repository.s), s1, s2);
        TombstoneStays(s1, s2);
        if pending.Threw? { return Threw; }
        if pending.value { return Answered(true); }
        S.MadeStays(s1, s2, edge);
        var acknowledged, _ := repository.AcknowledgeRevokedExternalOutput(me, edge, clock);
        S.GrowsTransitive(old(repository.s), s2, repository.s);
        TombstoneStays(s2, repository.s);
        if acknowledged.EdgeMissing? { return Threw; }
      }
      r := Answered(true);
    }

    // ---------------------------------------------------------------- recovery

    /** One look: what it answers is what the states it was taken in make of it, taken one
        after the other during the call. */
    method ActiveOutput(me: nat, ref: RefId, caller: Caller, authority: Option<(int, A.Digest)>)
      returns (r: Try<Option<Record<A.Meta>>>, ghost at: Sighting)
      requires Valid()
      modifies this, repository
      ensures Valid() && R.Grows(old(intents), intents) && S.Grows(old(repository.s), repository.s)
      ensures r == LookAt(at, ref, caller, authority) && observed == old(observed) + [Looked(r)]
      ensures R.Grows(old(intents), at.reservation) && R.Grows(at.reservation, intents)
      ensures SightedBetween(old(repository.s), at, repository.s)
    {
      hide R.Grows, R.WorldInv, S.Evolves, S.SlotInv, LookFurther;
      R.GrowsReflexive(intents);
      repository.GrowsHere();
      ghost var s0, before := repository.s, observed;
      at := Sighting(aborted, intents, s0, false, Asked(false, s0, false, s0, 0), s0, false, 0);
      r := Threw;
      if !aborted {
        var intent := ReadIntent(ref);
        R.GrowsReflexive(intents);
        ghost var s1 := repository.s;
        repository.GrowsHere();
        at := Sighting(false, intents, s1, false, Asked(false, s1, false, s1, 0), s1, false, 0);
        if intent.Some? && intent.value.value.revoked {
          r := Answered(None);
        } else {
          r, at := LookAtRecords(me, ref, caller, authority, at);
          S.GrowsTransitive(s0, s1, repository.s);
          SightedEarlier(s0, s1, at, repository.s);
        }
      }
      observed := before + [Looked(r)];
    }

    method LookAtRecords(me: nat, ref: RefId, caller: Caller, authority: Option<(int, A.Digest)>, ghost so: Sighting)
      returns (r: Try<Option<Record<A.Meta>>>, ghost at: Sighting)
      requires repository.Valid() && !so.cancelled && !(ref.OperationOutput? && Revoked(so.reservation, ref))
      modifies this`clock, this`aborted, repository
      ensures repository.Valid() && S.Grows(old(repository.s), repository.s)
      ensures r == LookAt(at, ref, caller, authority) && at.reservation == so.reservation
      ensures SightedBetween(old(repository.s), at, repository.s)
    {
      hide S.Evolves, S.SlotInv;
      ghost var s0 := repository.s;
      var output, _ := repository.GetForCaller(ref, caller);
      Wait();
      ghost var s1 := repository.s;
      repository.GrowsHere();
      at := so.(output := s1, cancelledAtOutput := aborted, asked := Asked(false, s1, false, s1, 0), source := s1);
      if output.Threw? || aborted { return Threw, at; }
      if output.value.None? || !output.value.value.value.details.Canonical? { return Answered(None), at; }
      var meta := output.value.value.value;
      if meta.details.externalSourceRef.Some? {
        var asserted;
        ghost var asked;
        asserted, asked := AssertExternalSource(me, authority);
        S.GrowsTransitive(s0, s1, repository.s);
        repository.GrowsHere();
        at := at.(asked := asked, source := repository.s);
        if asserted.Threw? { return Threw, at; }
        if asserted.value.None? { return Answered(None), at; }
      }
      ghost var s2 := repository.s;
      var source, _ := repository.GetForCaller(meta.details.sourceRefId, caller);
      Wait();
      S.GrowsTransitive(s0, s2, repository.s);
      S.GrowsTransitive(at.asked.second, s2, repository.s);
      repository.GrowsHere();
      at := at.(source := repository.s, cancelledAtSource := aborted, nowMs := clock);
      if source.Threw? || aborted { return Threw, at; }
      if source.value.None? || !Usable(meta, clock) || !Usable(source.value.value.value, clock) {
        return Answered(None), at;
      }
      if !source.value.value.value.details.Source? { return Answered(None), at; }
      r := Answered(output.value);
    }

    /** Ready if and only if the reservation stood published, unrevoked and unexpired at `at`
        and what was observed is a ready course; then the bytes of output and source were
        read back as the records that carry the reserved hashes. Nothing is found only where
        nothing is reserved, and it breaks off only for the reasons given. */
    method RecoverOperation(me: nat, operationKey: string, caller: Caller, authority: Authority, blobs: Blobs)
      returns (r: Try<Option<Recovery>>, ghost at: R.World, ghost seen: ReadBack, ghost course: seq<Observed>,
               ghost checkedAt: int)
      requires Valid()
      modifies this, repository
      ensures Valid() && R.Grows(old(intents), intents) && S.Grows(old(repository.s), repository.s)
      ensures R.Grows(old(intents), at) && R.Grows(at, intents)
      ensures observed == old(observed) + course
      ensures r.Answered? ==>
                RecoveredAs(r.value, at, A.OperationOutput(caller, operationKey), caller, course, checkedAt)
      ensures r.Threw? ==>
                || aborted || !(1 <= |operationKey| <= 256) || BrokenCourse(course)
                || ReservedByOther(at, A.OperationOutput(caller, operationKey), caller)
      ensures r.Answered? && r.value.Some? && r.value.value.ready ==>
                && Standing(at, A.OperationOutput(caller, operationKey))
                && IsReadBack(seen, at.records[A.OperationOutput(caller, operationKey)].value.fingerprint,
                              A.OperationOutput(caller, operationKey), A.OperationSource(caller, operationKey), blobs)
                && Spans(seen, old(repository.s), repository.s)
      ensures r.Answered? && r.value.Some? && r.value.value.ready
              && Settled(old(repository.s), repository.s, caller, operationKey) ==>
                && A.Hash(blobs.outputBytes.value) ==
                     at.records[A.OperationOutput(caller, operationKey)].value.fingerprint.outputHash
                && A.Hash(blobs.sourceBytes.value) ==
                     at.records[A.OperationOutput(caller, operationKey)].value.fingerprint.sourceHash
    {
      hide R.Grows, R.WorldInv, S.Evolves, S.SlotInv, IsReadBack, Settled, ReadyCourse, UnreadyCourse, BrokenCourse;
      R.GrowsReflexive(intents);
      repository.GrowsHere();
      at, seen := intents, ReadBack(repository.s, repository.s, repository.s, repository.s);
      r, course, checkedAt := Threw, [], 0;
      if aborted || !(1 <= |operationKey| <= 256) { return; }
      var ref := A.OperationOutput(caller, operationKey);
      ghost var s0 := repository.s;
      var read := ReadIntent(ref);
      at := intents;
      R.GrowsReflexive(at);
      ghost var s1 := repository.s;
      if read.None? {
        r := Answered(None);
        return;
      }
      var intent := read.value.value;
      if intent.owner != caller { return; }
      var ready := false;
      checkedAt := clock;
      if intent.published && !intent.revoked && intent.expiresAt > clock {
        var checked;
        checked, course, seen := CheckReady(me, operationKey, caller, intent, authority, blobs);
        R.GrowsTransitive(old(intents), at, intents);
        S.GrowsTransitive(s0, s1, repository.s);
        if checked.Threw? { return; }
        ready := checked.value;
        if ready { SpansEarlier(seen, s0, s1, repository.s); }
        if ready { ReadBackHashes(seen, intent.fingerprint, caller, operationKey, blobs, s0, repository.s); }
      }
      if aborted { return; }
      r := Answered(Some(Recovery(ref, ready)));
    }

    /** Ready, not ready, or broken off, exactly as what it observed says: not ready only if
        the first look found the output unavailable or a hash did not match; once both were
        read back a second look that finds the output unavailable no longer matters. Ready
        means output and source are the ones reserved, and both read back verified. */
    method CheckReady(me: nat, operationKey: string, caller: Caller, intent: R.Intent, authority: Authority,
            blobs: Blobs)
      returns (r: Try<bool>, ghost course: seq<Observed>, ghost seen: ReadBack)
      requires Valid()
      modifies this, repository
      ensures Valid() && R.Grows(old(intents), intents) && S.Grows(old(repository.s), repository.s)
      ensures observed == old(observed) + course
      ensures r == Answered(true) <==> ReadyCourse(course, intent.fingerprint)
      ensures r == Answered(false) <==> UnreadyCourse(course, intent.fingerprint)
      ensures r.Threw? <==> BrokenCourse(course)
      ensures r == Answered(true) ==>
                && IsReadBack(seen, intent.fingerprint, A.OperationOutput(caller, operationKey),
                              A.OperationSource(caller, operationKey), blobs)
                && Spans(seen, old(repository.s), repository.s)
    {
      hide R.Grows, R.WorldInv, S.Evolves, S.SlotInv, InPlace, ReadyCourse, UnreadyCourse, BrokenCourse;
      var ref, sourceRef := A.OperationOutput(caller, operationKey), A.OperationSource(caller, operationKey);
      ghost var i0, s0 := intents, repository.s;
      seen := ReadBack(s0, s0, s0, s0);
      var output, at := ActiveOutput(me, ref, caller, authority.first);
      ghost var i1, s1 := intents, repository.s;
      course := [Looked(output)];
      FirstLookCourse(output, intent.fingerprint);
      if output.Threw? { return Threw, course, seen; }
      if output.value.None? { return Answered(false), course, seen; }
      ghost var outputSeen := at.output;
      LookSeesExactly(at, ref, caller, authority.first, output.value.value);
      OutputMoment(s0, at, s1);
      var source, _ := repository.GetForCaller(sourceRef, caller);
      ghost var sourceSeen := repository.s;
      StillInPlace(intents, s1, sourceSeen);
      S.GrowsTransitive(s0, s1, sourceSeen);
      S.GrowsTransitive(outputSeen, s1, sourceSeen);
      course, observed := course + [FetchedSource(source)], observed + [FetchedSource(source)];
      assert course == [Looked(output), FetchedSource(source)];
      FetchedCourse(output, source, intent.fingerprint);
      if source.Threw? { return Threw, course, seen; }
      if output.value.value.value.contentHash != intent.fingerprint.outputHash || source.value.None?
         || source.value.value.value.contentHash != intent.fingerprint.sourceHash {
        return Answered(false), course, seen;
      }
      ghost var more, outputRead, sourceRead;
      r, more, outputRead, sourceRead := ReadBothBack(me, ref, sourceRef, caller, authority.second, blobs, course,
                                                      intent.fingerprint);
      course, seen := course + more, ReadBack(outputSeen, sourceSeen, outputRead, sourceRead);
      R.GrowsTransitive(i0, i1, intents);
      S.GrowsTransitive(s0, sourceSeen, repository.s);
    }

    /** The rest of a recovery whose records matched. */
    method ReadBothBack(me: nat, ref: RefId, sourceRef: RefId, caller: Caller, authority: Option<(int, A.Digest)>,
            blobs: Blobs, ghost course: seq<Observed>, ghost f: R.Fingerprint)
      returns (r: Try<bool>, ghost more: seq<Observed>, ghost outputRead: S.Slot, ghost sourceRead: S.Slot)
      requires Valid() && |course| == 2 && Matched(course[0], course[1], f)
      modifies this, repository
      ensures Valid() && R.Grows(old(intents), intents) && S.Grows(old(repository.s), repository.s)
      ensures observed == old(observed) + more && r != Answered(false)
      ensures r == Answered(true) <==> ReadyCourse(course + more, f)
      ensures r.Threw? <==> BrokenCourse(course + more)
      ensures !UnreadyCourse(course + more, f)
      ensures r == Answered(true) ==>
                && ReadsAs(outputRead, ref, blobs.outputBytes) && ReadsAs(sourceRead, sourceRef, blobs.sourceBytes)
                && S.SlotInv(outputRead) && S.SlotInv(sourceRead) && S.Grows(old(repository.s), outputRead)
                && S.Grows(outputRead, sourceRead) && S.Grows(sourceRead, repository.s)
    {
      hide R.Grows, R.WorldInv, S.Evolves, S.SlotInv, InPlace, ReadyCourse, UnreadyCourse, BrokenCourse, Matched;
      ghost var s0 := repository.s;
      R.GrowsReflexive(intents);
      sourceRead := s0;
      var outputBytes, _ := repository.ReadVerified(ref, caller, clock, MAX_IMMUTABLE_BLOB_BYTES, blobs.outputBytes);
      outputRead := repository.s;
      StillInPlace(intents, s0, outputRead);
      more, observed := [ReadOutput(outputBytes)], observed + [ReadOutput(outputBytes)];
      MatchedCourse(course, more, f);
      if outputBytes.Threw? { return Threw, more, outputRead, sourceRead; }
      var sourceBytes, _ := repository.ReadVerified(sourceRef, caller, clock, MAX_IMMUTABLE_BLOB_BYTES,
                                                    blobs.sourceBytes);
      sourceRead := repository.s;
      StillInPlace(intents, outputRead, sourceRead);
      S.GrowsTransitive(s0, outputRead, sourceRead);
      more, observed := more + [ReadSource(sourceBytes)], observed + [ReadSource(sourceBytes)];
      MatchedCourse(course, more, f);
      if sourceBytes.Threw? { return Threw, more, outputRead, sourceRead; }
      var again, _ := ActiveOutput(me, ref, caller, authority);
      S.GrowsTransitive(s0, sourceRead, repository.s);
      more := more + [Looked(again)];
      MatchedCourse(course, more, f);
      if again.Threw? { return Threw, more, outputRead, sourceRead; }
      r := Answered(true);
    }

    // ---------------------------------------------------------------- save

    /** Every successful save under one operation key gives the same reference; a reserved
        one was published and unrevoked at some moment of the call, so none succeeds that
        starts after a revocation, and on an undisturbed reservation all of them were for
        the very same source and payload. The metadata returned is that of a record that
        was stored, the caller's own, and while nothing is removed it names this payload.
        What a save leaves (`left`) is its canonical record, derived from the very source and
        external source given, and it expires by the limits of the save that made it; a
        replay finds that on a reservation never swept and artifacts never removed. */
    method Save(me: nat, input: SaveInput, authority: Authority, blobs: Blobs)
      returns (r: Try<A.Meta>, ghost at: R.World, ghost stored: S.Slot, ghost left: Left)
      requires Valid()
      modifies this, repository
      ensures Valid() && S.Grows(old(repository.s), repository.s)
      ensures r.Answered? ==> StoredFor(r.value, input, stored) && Moment(old(repository.s), stored, repository.s)
      ensures r.Answered? && input.operationKey.Some? ==>
                && R.Grows(old(intents), at) && R.Grows(at, intents) && Standing(at, OutputRef(input))
                && (R.Disturbances(intents, OutputRef(input)) == R.Disturbances(old(intents), OutputRef(input)) ==>
                      at.records[OutputRef(input)].value.fingerprint == FingerprintOf(input))
      ensures r.Answered? && input.operationKey.Some? && Revoked(old(intents), OutputRef(input)) ==>
                R.Disturbances(intents, OutputRef(input)) > R.Disturbances(old(intents), OutputRef(input))
      ensures r.Answered?
              && (input.operationKey.Some? ==>
                    Retained(old(intents), intents, old(repository.s), repository.s, OutputRef(input))) ==>
                r.value.contentHash == A.Hash(input.payload)
      ensures r.Answered? && (left.replayed ==> NeverDropped(intents, repository.s, input)) ==>
                && SavedAs(r.value, input) && SourceSaved(left.sourced, input)
                && Moment(old(repository.s), left.sourced, repository.s) && WithinLimits(r.value, input, left)
                && Traceable(repository.s, input, left.edge)
      ensures r.Answered? && input.externalSourceRef.Some? ==>
                !Tombstoned(old(repository.s)) && VouchedFor(input, authority)
                && (!left.replayed ==> authority.second.Some?)
      ensures r.Answered? && !left.replayed ==> left.checkedAt < r.value.expiresAt
      ensures r.Answered? ==> (left.replayed ==> input.operationKey.Some?)
      ensures r.Answered? && input.operationKey.None? ==> left.limits == LimitsOf(ttlSeconds, input, authority)
      ensures r.Answered? && input.operationKey.Some? ==> left.terms in intents.granted
    {
      hide R.Grows, R.WorldInv, S.Evolves, S.SlotInv, Undisturbed, StoredFor, R.Disturbances, SavedAs, SourceSaved;
      ghost var i0, s0 := intents, repository.s;
      at, stored, left := intents, repository.s, Nothing(input, repository.s);
      R.GrowsReflexive(intents);
      repository.GrowsHere();
      if aborted { return Threw, at, stored, left; }
      var external := None;
      if input.externalSourceRef.Some? {
        var asserted, _ := AssertExternalSource(me, authority.first);
        if asserted.Threw? || asserted.value.None? { return Threw, at, stored, left; }
        external := asserted.value;
        StandsUntil(s0, repository.s);
        if external.value.1 != A.Hash(input.sourceBytes) { return Threw, at, stored, left; }
      }
      ghost var s1 := repository.s;
      if |input.payload| > MAX_IMMUTABLE_BLOB_BYTES || aborted { return Threw, at, stored, left; }
      var nowMs := clock;
      var e1 := Min(nowMs + ttlSeconds * 1000,
                    if input.sourceExpiresAt.Some? then input.sourceExpiresAt.value else MAX_SAFE_INTEGER);
      var expiresAt := Min(e1, if external.Some? then external.value.0 else MAX_SAFE_INTEGER);
      if nowMs < 0 || nowMs > MAX_SAFE_INTEGER || expiresAt > MAX_SAFE_INTEGER || expiresAt <= nowMs {
        return Threw, at, stored, left;
      }
      if !(1 <= |input.sourceBytes| <= MAX_IMMUTABLE_BLOB_BYTES) { return Threw, at, stored, left; }
      var limits := LimitsOf(ttlSeconds, input, authority);
      var terms := R.Terms(OutputRef(input), input.caller, FingerprintOf(input), nowMs, expiresAt);
      assert R.Lawful(terms, limits);
      if input.operationKey.None? {
        ghost var sourced, edge, checkedAt;
        r, stored, sourced, edge, checkedAt := PlaceOrCompensate(me, input, nowMs, expiresAt, authority, blobs, terms,
                                                                 0);
        left := Left(false, sourced, terms, limits, edge, checkedAt);
        S.GrowsTransitive(s0, s1, stored);
        S.GrowsTransitive(s0, s1, sourced);
        S.GrowsTransitive(s0, s1, repository.s);
        return;
      }
      r, at, stored, left := SaveReserved(me, input, nowMs, expiresAt, authority, blobs, limits);
      S.GrowsTransitive(s0, s1, stored);
      S.GrowsTransitive(s0, s1, left.sourced);
      S.GrowsTransitive(s0, s1, repository.s);
      DisturbancesGrow(s0, s1, repository.s, OutputRef(input));
      if r.Answered? && Revoked(i0, OutputRef(input)) { RevocationHolds(i0, at, intents, OutputRef(input)); }
    }

    method SaveReserved(me: nat, input: SaveInput, nowMs: int, expiresAt: int, authority: Authority, blobs: Blobs,
            limits: R.Limits)
      returns (r: Try<A.Meta>, ghost at: R.World, ghost stored: S.Slot, ghost left: Left)
      requires Valid() && input.operationKey.Some?
      requires R.Lawful(R.Terms(OutputRef(input), input.caller, FingerprintOf(input), nowMs, expiresAt), limits)
      modifies this, repository
      ensures Valid() && S.Grows(old(repository.s), repository.s) && Moment(old(repository.s), stored, repository.s)
      ensures r.Answered? ==> StoredFor(r.value, input, stored)
      ensures R.Grows(old(intents), at) && R.Grows(at, intents)
      ensures r.Answered? ==>
                && Standing(at, OutputRef(input))
                && (R.Disturbances(intents, OutputRef(input)) == R.Disturbances(old(intents), OutputRef(input)) ==>
                      at.records[OutputRef(input)].value.fingerprint == FingerprintOf(input))
                && (Retained(old(intents), intents, old(repository.s), repository.s, OutputRef(input)) ==>
                      r.value.contentHash == A.Hash(input.payload))
      ensures Moment(old(repository.s), left.sourced, repository.s)
      ensures r.Answered? && (left.replayed ==> NeverDropped(intents, repository.s, input)) ==>
                && SavedAs(r.value, input) && SourceSaved(left.sourced, input) && WithinLimits(r.value, input, left)
                && Traceable(repository.s, input, left.edge)
      ensures r.Answered? && !left.replayed ==>
                left.checkedAt < r.value.expiresAt && (input.externalSourceRef.Some? ==> authority.second.Some?)
      ensures r.Answered? ==> left.terms in intents.granted
    {
      hide R.Grows, R.WorldInv, S.Evolves, S.SlotInv, Undisturbed, StoredFor, R.Disturbances, SavedAs, SourceSaved,
           NeverDropped, R.Lawful;
      ghost var i0, s0 := intents, repository.s;
      at, stored, left := intents, repository.s, Nothing(input, repository.s);
      R.GrowsReflexive(intents);
      repository.GrowsHere();
      var reserved := Reserve(input, nowMs, expiresAt, limits);
      ghost var i1, s1 := intents, repository.s;
      at, stored, left := i1, s1, Nothing(input, s1);
      R.GrowsReflexive(i1);
      repository.GrowsHere();
      if reserved.Threw? { return Threw, at, stored, left; }
      var intent := reserved.value;
      var terms := R.TermsOf(OutputRef(input), intent);
      LawfulHere(i1, terms);
      if intent.revoked || intent.expiresAt <= clock { return Threw, at, stored, left; }
      if intent.published {
        r, at, stored := SaveAgain(me, input, authority, blobs);
        left := Left(true, stored, terms, i1.granted[terms], EdgeOf(i1, terms), 0);
        R.GrowsTransitive(i0, i1, at);
        if r.Answered? {
          FingerprintStays(i0, i1, at, intents, input);
          R.GrowsTransitive(i1, at, intents);
          GrantsStay(i1, intents, terms);
          if NeverDropped(intents, repository.s, input) {
            ReplayIsSaved(i1, intents, s1, stored, repository.s, input, r.value);
            ReplayIsTraceable(i1, intents, s1, repository.s, input);
          }
        }
        ReservationsMonotone(i0, i1, at, intents, OutputRef(input));
      } else {
        var n := R.Disturbances(intents, OutputRef(input));
        ghost var sourced, edge, checkedAt := s1, 0, 0;
        r, stored, sourced, edge, checkedAt := PlaceOrCompensate(me, input, intent.createdAt, intent.expiresAt,
                                                                 authority, blobs, terms, n);
        left := Left(false, sourced, terms, i1.granted[terms], edge, checkedAt);
        at := intents;
        GrantsStay(i1, at, terms);
        R.GrowsTransitive(i0, i1, at);
        R.GrowsReflexive(at);
        if r.Answered? { FingerprintStays(i0, i1, at, intents, input); }
      }
      S.GrowsTransitive(s0, s1, stored);
      S.GrowsTransitive(s0, s1, left.sourced);
      S.GrowsTransitive(s0, s1, repository.s);
      DisturbancesGrow(s0, s1, repository.s, OutputRef(input));
    }

    /** A save of an operation already published only re-reads it. */
    method SaveAgain(me: nat, input: SaveInput, authority: Authority, blobs: Blobs)
      returns (r: Try<A.Meta>, ghost at: R.World, ghost stored: S.Slot)
      requires Valid() && input.operationKey.Some?
      modifies this, repository
      ensures Valid() && S.Grows(old(repository.s), repository.s) && Moment(old(repository.s), stored, repository.s)
      ensures R.Grows(old(intents), at) && R.Grows(at, intents)
      ensures r.Answered? ==> StoredFor(r.value, input, stored) && Standing(at, OutputRef(input))
      ensures r.Answered? && Undisturbed(old(repository.s), repository.s, OutputRef(input)) ==>
                r.value.contentHash == at.records[OutputRef(input)].value.fingerprint.outputHash
    {
      hide R.Grows, R.WorldInv, S.Evolves, S.SlotInv, Settled;
      ghost var s0 := repository.s;
      var recovered, recoveredAt, seen, _, _ := RecoverOperation(me, input.operationKey.value, input.caller, authority,
                                                                 blobs);
      ghost var s1 := repository.s;
      at, stored := recoveredAt, s1;
      repository.GrowsHere();
      if !(recovered.Answered? && recovered.value.Some? && recovered.value.value.ready) { return Threw, at, stored; }
      var output, _ := repository.GetForCaller(OutputRef(input), input.caller);
      stored := repository.s;
      S.GrowsTransitive(s0, s1, stored);
      repository.GrowsHere();
      if output.Threw? || output.value.None? { return Threw, at, stored; }
      r := Answered(output.value.value.value);
      RefIdOf(stored, OutputRef(input));
      SpanOfOutput(seen, s0, s1);
      S.GrowsTransitive(seen.outputSeen, s1, stored);
      if Undisturbed(s0, repository.s, OutputRef(input)) {
        SameContent(s0, seen.outputSeen, stored, repository.s, OutputRef(input));
      }
    }

    /** Success leaves a reserved operation published and unrevoked; failure is compensated. */
    method PlaceOrCompensate(me: nat, input: SaveInput, nowMs: int, expiresAt: int, authority: Authority, blobs: Blobs,
            terms: R.Terms, n: nat)
      returns (r: Try<A.Meta>, ghost stored: S.Slot, ghost sourced: S.Slot, ghost edge: S.EdgeId, ghost checkedAt: int)
      requires Valid() && TermsFor(terms, input, expiresAt)
      requires input.operationKey.Some? ==> HoldsTerms(intents, OutputRef(input), terms, n)
      modifies this, repository
      ensures Valid() && R.Grows(old(intents), intents)
      ensures S.Grows(old(repository.s), repository.s) && Moment(old(repository.s), stored, repository.s)
      ensures Moment(old(repository.s), sourced, repository.s)
      ensures r.Answered? ==>
                StoredFor(r.value, input, stored) && SavedAs(r.value, input) && SourceSaved(sourced, input)
      ensures r.Answered? ==> r.value.contentHash == A.Hash(input.payload) && r.value.expiresAt == expiresAt
      ensures r.Answered? ==> Traceable(repository.s, input, edge) && checkedAt < expiresAt
      ensures r.Answered? && input.externalSourceRef.Some? ==> authority.second.Some?
      ensures r.Answered? && input.operationKey.Some? ==> Standing(intents, OutputRef(input))
    {
      hide R.Grows, R.WorldInv, S.Evolves, S.SlotInv, StoredFor, SavedAs, SourceSaved, TermsFor, HoldsTerms;
      ghost var i0, s0 := intents, repository.s;
      var attempted;
      r, attempted, stored, sourced, edge, checkedAt := Place(me, input, nowMs, expiresAt, authority, blobs, terms, n);
      if r.Answered? { return; }
      ghost var i1, s1 := intents, repository.s;
      if input.operationKey.Some? {
        var _, _ := Delete(me, OutputRef(input), input.caller, blobs.mismatch, false, None);
        R.GrowsTransitive(i0, i1, intents);
      } else {
        repository.GrowsHere();
      }
      ghost var s2 := repository.s;
      var _, _ := Compensate(me, attempted, input, expiresAt, blobs.mismatch);
      S.GrowsTransitive(s1, s2, repository.s);
      S.GrowsTransitive(s0, s1, repository.s);
      S.GrowsTransitive(stored, s1, repository.s);
      S.GrowsTransitive(sourced, s1, repository.s);
    }

    /** Source, output, registration, a last look at the reservation, publication. The
        references written so far come back for compensation. */
    method Place(me: nat, input: SaveInput, nowMs: int, expiresAt: int, authority: Authority, blobs: Blobs,
            terms: R.Terms, n: nat)
      returns (r: Try<A.Meta>, attempted: seq<(RefId, A.Digest)>, ghost stored: S.Slot, ghost sourced: S.Slot,
               ghost edge: S.EdgeId, ghost checkedAt: int)
      requires Valid() && TermsFor(terms, input, expiresAt)
      requires input.operationKey.Some? ==> HoldsTerms(intents, OutputRef(input), terms, n)
      modifies this, repository
      ensures Valid() && R.Grows(old(intents), intents)
      ensures S.Grows(old(repository.s), repository.s) && Moment(old(repository.s), stored, repository.s)
      ensures Moment(old(repository.s), sourced, repository.s)
      ensures r.Answered? ==>
                StoredFor(r.value, input, stored) && SavedAs(r.value, input) && SourceSaved(sourced, input)
      ensures r.Answered? ==> r.value.contentHash == A.Hash(input.payload) && r.value.expiresAt == expiresAt
      ensures r.Answered? ==> Traceable(repository.s, input, edge) && checkedAt < expiresAt
      ensures r.Answered? && input.externalSourceRef.Some? ==> authority.second.Some?
      ensures r.Answered? && input.operationKey.Some? ==> Standing(intents, OutputRef(input))
      ensures forall n | 0 <= n < |attempted| ::
                attempted[n].0 == SourceRef(input) || attempted[n].0 == OutputRef(input)
    {
      hide R.Grows, R.WorldInv, S.Evolves, S.SlotInv, HoldsTerms, SavedAs, SourceSaved, A.SameArtifact, TermsFor;
      R.GrowsReflexive(intents);
      repository.GrowsHere();
      var reserved := input.operationKey.Some?;
      var sourceRef, outputRef := SourceRef(input), OutputRef(input);
      ghost var s0 := repository.s;
      stored, sourced, edge, checkedAt := s0, s0, 0, 0;
      r, attempted := Threw, [(sourceRef, A.Hash(input.sourceBytes))];
      var source := repository.PutArtifact(SourceToPut(input, expiresAt), input.sourceBytes, nowMs,
                                           blobs.sourceConflict);
      ghost var s1 := repository.s;
      stored, sourced := s1, s1;
      repository.GrowsHere();
      if source.Threw? { return; }
      if !source.value.0 && !reserved {
        attempted := [];
        return;
      }
      if source.value.1.value.status != A.Active || aborted { return; }
      var outputNow := if reserved then nowMs else clock;
      var output := repository.PutArtifact(OutputToPut(input, expiresAt), input.payload, outputNow,
                                           blobs.outputConflict);
      attempted := attempted + [(outputRef, A.Hash(input.payload))];
      stored := repository.s;
      repository.GrowsHere();
      S.GrowsTransitive(s0, s1, stored);
      if output.Threw? { return; }
      if !output.value.0 && !reserved {
        attempted := attempted[..1];
        return;
      }
      if output.value.1.value.status != A.Active { return; }
      var sm, om := source.value.1.value, output.value.1.value;
      PutAsSaved(input, expiresAt, sm, om, nowMs, outputNow, s1, stored);
      var claim := R.Claim(terms, n, R.Placement(A.IdentityOf(om), A.IdentityOf(sm), None));
      PlacedAsReserved(terms, input, expiresAt, sm, om, nowMs, outputNow);
      PutsOf(s1, sourceRef);
      PutsOf(stored, outputRef);
      var done;
      done, edge, checkedAt := RegisterAndPublish(me, input, expiresAt, authority, claim);
      S.GrowsTransitive(s0, stored, repository.s);
      S.GrowsTransitive(s1, stored, repository.s);
      if done { r := Answered(output.value.1.value); }
    }

    method RegisterAndPublish(me: nat, input: SaveInput, expiresAt: int, authority: Authority, claim: R.Claim)
      returns (done: bool, ghost edge: S.EdgeId, ghost checkedAt: int)
      requires Valid() && R.PlacedFor(claim.terms, claim.placement) && Stored(claim.placement, repository.s)
      requires TermsFor(claim.terms, input, expiresAt)
      requires input.operationKey.Some? ==>
                 HoldsTerms(intents, OutputRef(input), claim.terms, claim.disturbances)
      modifies this, repository
      ensures Valid() && R.Grows(old(intents), intents) && S.Grows(old(repository.s), repository.s)
      ensures done && input.operationKey.Some? ==> Standing(intents, OutputRef(input))
      ensures done ==> Traceable(repository.s, input, edge) && checkedAt < expiresAt
      ensures done && input.externalSourceRef.Some? ==> authority.second.Some?
    {
      hide R.Grows, R.WorldInv, S.Evolves, S.SlotInv, R.PlacedFor, HoldsTerms, TermsFor;
      R.GrowsReflexive(intents);
      repository.GrowsHere();
      done := false;
      var reserved, outputRef := input.operationKey.Some?, OutputRef(input);
      ghost var s0, i0 := repository.s, intents;
      var placed := claim;
      edge, checkedAt := 0, 0;
      if input.externalSourceRef.Some? {
        var registered, e := repository.RegisterExternalOutput(me, outputRef, clock, []);
        edge := e;
        placed := claim.(placement := claim.placement.(edge := Some(e)));
        ghost var s1 := repository.s;
        if !registered { return; }
        var still, _ := AssertExternalSource(me, authority.second);
        S.GrowsTransitive(s0, s1, repository.s);
        S.MadeStays(s1, repository.s, edge);
        if still.Threw? || still.value.None? { return; }
      }
      if aborted { return; }
      ghost var s2 := repository.s;
      repository.GrowsHere();
      if reserved {
        var intent := ReadIntent(outputRef);
        TermsStay(i0, intents, outputRef, claim.terms, claim.disturbances);
        S.GrowsTransitive(s0, s2, repository.s);
        if intent.None? || intent.value.value.revoked { return; }
      }
      ghost var i1, s3 := intents, repository.s;
      repository.GrowsHere();
      checkedAt := clock;
      if clock >= expiresAt { return; }
      if reserved {
        if input.externalSourceRef.Some? { S.MadeStays(s2, s3, edge); }
        PlacedIsRegistered(claim, placed, input, expiresAt, repository.s);
        var published := PublishIntent(outputRef, placed);
        R.GrowsTransitive(i0, i1, intents);
        S.GrowsTransitive(s0, s3, repository.s);
        if !published { return; }
      }
      if input.externalSourceRef.Some? {
        S.GrowsTransitive(s2, s3, repository.s);
        S.MadeStays(s2, repository.s, edge);
      }
      done := true;
    }

    /** Newest first, every reference this save may have written: gone at some moment, or
        not this save's at some moment, or still there when storage failed, for the sweep. */
    method Compensate(me: nat, attempted: seq<(RefId, A.Digest)>, input: SaveInput, expiresAt: int, mismatch: bool)
      returns (ends: seq<Compensation>, ghost moments: seq<S.Slot>)
      requires repository.Valid()
      modifies repository
      ensures repository.Valid() && S.Grows(old(repository.s), repository.s)
      ensures |ends| == |moments| == |attempted|
      ensures forall k | 0 <= k < |attempted| ::
                Compensated(ends[k], moments[k].artifacts, attempted[|attempted| - 1 - k], expiresAt)
                  && S.Grows(old(repository.s), moments[k])
    {
      hide S.Evolves, S.SlotInv, Compensated;
      repository.GrowsHere();
      ends, moments := [], [];
      var n := |attempted|;
      while n > 0
        invariant repository.Valid() && S.Grows(old(repository.s), repository.s) && 0 <= n <= |attempted|
        invariant |ends| == |moments| == |attempted| - n
        invariant forall k | 0 <= k < |ends| ::
            Compensated(ends[k], moments[k].artifacts, attempted[|attempted| - 1 - k], expiresAt)
              && S.Grows(old(repository.s), moments[k])
      {
        n := n - 1;
        ghost var s0 := repository.s;
        var end, moment := CompensateOne(me, attempted[n], input.caller, expiresAt, mismatch);
        S.GrowsTransitive(old(repository.s), s0, repository.s);
        S.GrowsTransitive(old(repository.s), s0, moment);
        ends, moments := ends + [end], moments + [moment];
      }
    }

    method CompensateOne(me: nat, identity: (RefId, A.Digest), caller: Caller, expiresAt: int, mismatch: bool)
      returns (end: Compensation, ghost moment: S.Slot)
      requires repository.Valid()
      modifies repository
      ensures repository.Valid() && S.Grows(old(repository.s), repository.s)
      ensures Moment(old(repository.s), moment, repository.s)
      ensures Compensated(end, moment.artifacts, identity, expiresAt)
    {
      hide S.Evolves, S.SlotInv;
      ghost var s0 := repository.s;
      var committed, _ := repository.GetForCaller(identity.0, caller);
      ghost var s1 := repository.s;
      moment := s1;
      repository.GrowsHere();
      if committed.Threw? { return LeftToSweep, moment; }
      if committed.value.None? { return Gone, moment; }
      var found := committed.value.value.value;
      if found.contentHash != identity.1 || found.expiresAt != expiresAt { return NotOurs, moment; }
      var removed := RemoveRef(me, identity.0, caller, mismatch, None);
      S.GrowsTransitive(s0, s1, repository.s);
      repository.GrowsHere();
      end, moment := if removed == Answered(true) then Gone else LeftToSweep, repository.s;
    }
  }

  // ------------------------------------------------------------------ what the operations say they saw

  /** `m` is a state the repository was in between two others. */
  ghost predicate Moment(s0: S.Slot, m: S.Slot, s1: S.Slot) { S.SlotInv(m) && S.Grows(s0, m) && S.Grows(m, s1) }

  predicate RevokedRecord(s: S.Slot, ref: RefId, caller: Caller) {
    && ref in s.artifacts.records && s.artifacts.records[ref].value.status != A.Active
    && A.OwnedBy(s.artifacts.records[ref].value, caller)
  }

  /** The edge, if there is one, was registered for this output. */
  predicate LeadsTo(s: S.Slot, edge: Option<S.EdgeId>, ref: RefId) {
    edge.Some? ==> D.RegisteredFor(s, edge.value, ref)
  }

  predicate Noted(s: S.Slot, edge: Option<S.EdgeId>) { edge.Some? ==> edge.value in s.gone }

  predicate Unreserved(w: R.World, ref: RefId) { ref.OperationOutput? ==> ref !in w.records }

  /** How a deletion went: of a reserved operation, of a record without a reservation, or
      of nothing. Each carries the moments it speaks of. */
  datatype Trail =
    | Stopped
    | Reserved(reservationRevoked: R.World, outputTurn: S.Slot, sourceTurn: S.Slot)
    | Recorded(unreserved: R.World, recordRevoked: S.Slot, sourceDone: S.Slot, outputDone: S.Slot)
    | Absent(unreserved: R.World, absent: S.Slot)

  ghost predicate Followed(t: Trail, ref: RefId, caller: Caller, pending: bool, i0: R.World, i1: R.World, s0: S.Slot,
                           s1: S.Slot) {
    match t
    case Stopped => false
    case Reserved(revoked, output, source) =>
      && ref.OperationOutput? && R.Grows(i0, revoked) && R.Grows(revoked, i1) && Revoked(revoked, ref)
      && S.Grows(s0, output) && S.Grows(output, source) && S.Grows(source, s1)
      && (!pending <==>
            && ref !in output.artifacts.records
            && A.OperationSource(ref.caller, ref.operationKey) !in source.artifacts.records)
    case Recorded(unreserved, at, source, output) =>
      && R.Grows(i0, unreserved) && R.Grows(unreserved, i1) && Unreserved(unreserved, ref)
      && S.Grows(s0, at) && S.Grows(at, source) && S.Grows(source, output) && S.Grows(output, s1)
      && RevokedRecord(at, ref, caller) && at.artifacts.records[ref].value.details.Canonical?
      && (!pending <==>
            && at.artifacts.records[ref].value.details.sourceRefId !in source.artifacts.records
            && ref !in output.artifacts.records)
    case Absent(unreserved, at) =>
      && !pending && R.Grows(i0, unreserved) && R.Grows(unreserved, i1) && Unreserved(unreserved, ref)
      && S.Grows(s0, at) && S.Grows(at, s1) && ref !in at.artifacts.records
  }

  lemma FollowedEarlier(t: Trail, ref: RefId, caller: Caller, pending: bool, i0: R.World, i1: R.World, i2: R.World,
          s0: S.Slot, s1: S.Slot, s2: S.Slot)
    requires R.Grows(i0, i1) && S.Grows(s0, s1) && S.SlotInv(s0) && S.SlotInv(s1)
    requires Followed(t, ref, caller, pending, i1, i2, s1, s2)
    ensures Followed(t, ref, caller, pending, i0, i2, s0, s2)
  {
    hide R.Grows, S.Grows, S.SlotInv;
    R.GrowsTransitive(i0, i1, if t.Reserved? then t.reservationRevoked else t.unreserved);
    S.GrowsTransitive(s0, s1, if t.Reserved? then t.outputTurn else if t.Recorded? then t.recordRevoked else t.absent);
  }

  lemma EdgeStillLeads(s: S.Slot, s': S.Slot, edge: Option<S.EdgeId>, ref: RefId)
    requires LeadsTo(s, edge, ref) && S.Grows(s, s')
    ensures LeadsTo(s', edge, ref)
  {
    if edge.Some? { S.MadeStays(s, s', edge.value); }
  }

  lemma SightedEarlier(s0: S.Slot, s1: S.Slot, at: Sighting, s2: S.Slot)
    requires S.SlotInv(s0) && S.SlotInv(s1) && S.Grows(s0, s1) && SightedBetween(s1, at, s2)
    ensures SightedBetween(s0, at, s2)
  {
    hide S.SlotInv, S.Grows;
    S.GrowsTransitive(s0, s1, at.output);
  }

  ghost predicate AskedBetween(s0: S.Slot, at: Asked, s1: S.Slot) {
    && S.SlotInv(at.first) && S.SlotInv(at.second)
    && S.Grows(s0, at.first) && S.Grows(at.first, at.second) && S.Grows(at.second, s1)
  }

  /** The states a look was taken in, in the order the source reads them. */
  ghost predicate SightedBetween(s0: S.Slot, at: Sighting, s1: S.Slot) {
    && S.SlotInv(at.output) && S.SlotInv(at.source)
    && S.Grows(s0, at.output) && AskedBetween(at.output, at.asked, at.source) && S.Grows(at.source, s1)
  }

  lemma OutputMoment(s0: S.Slot, at: Sighting, s1: S.Slot)
    requires S.SlotInv(s0) && SightedBetween(s0, at, s1)
    ensures Moment(s0, at.output, s1)
  {
    hide S.SlotInv, S.Evolves;
    S.GrowsTransitive(at.output, at.asked.first, at.asked.second);
    S.GrowsTransitive(at.output, at.asked.second, at.source);
    S.GrowsTransitive(at.output, at.source, s1);
  }

  /** The moments of a recovery: both records compared, then both read back. */
  datatype ReadBack = ReadBack(outputSeen: S.Slot, sourceSeen: S.Slot, outputRead: S.Slot, sourceRead: S.Slot)

  /** A recovery answers that nothing is reserved, or whether the caller's reservation, still
      standing and unexpired, was found ready. */
  predicate RecoveredAs(answer: Option<Recovery>, at: R.World, ref: RefId, caller: Caller, course: seq<Observed>,
                        checkedAt: int) {
    && (answer.None? <==> ref !in at.records)
    && (answer.Some? ==>
          var i := at.records[ref].value;
          && i.owner == caller && answer.value.refId == ref
          && (answer.value.ready <==>
                Standing(at, ref) && checkedAt < i.expiresAt && ReadyCourse(course, i.fingerprint))
          && (if Standing(at, ref) && checkedAt < i.expiresAt
              then answer.value.ready || UnreadyCourse(course, i.fingerprint)
              else course == []))
  }

  predicate ReservedByOther(at: R.World, ref: RefId, caller: Caller) {
    ref in at.records && at.records[ref].value.owner != caller
  }

  predicate IsReadBack(b: ReadBack, f: R.Fingerprint, ref: RefId, sourceRef: RefId, blobs: Blobs) {
    && ref in b.outputSeen.artifacts.records && b.outputSeen.artifacts.records[ref].value.contentHash == f.outputHash
    && sourceRef in b.sourceSeen.artifacts.records
    && b.sourceSeen.artifacts.records[sourceRef].value.contentHash == f.sourceHash
    && ReadsAs(b.outputRead, ref, blobs.outputBytes) && ReadsAs(b.sourceRead, sourceRef, blobs.sourceBytes)
  }

  predicate ReadsAs(s: S.Slot, ref: RefId, bytes: Option<string>) {
    && bytes.Some? && ref in s.artifacts.records && s.artifacts.records[ref].value.contentHash == A.Hash(bytes.value)
    && s.artifacts.records[ref].value.status == A.Active && s.artifacts.records[ref].value.verification == A.Verified
  }

  ghost predicate Spans(b: ReadBack, s0: S.Slot, s1: S.Slot) {
    && S.SlotInv(b.outputSeen) && S.SlotInv(b.sourceSeen) && S.SlotInv(b.outputRead) && S.SlotInv(b.sourceRead)
    && S.Grows(s0, b.outputSeen) && S.Grows(b.outputSeen, b.sourceSeen) && S.Grows(b.sourceSeen, b.outputRead)
    && S.Grows(b.outputRead, b.sourceRead) && S.Grows(b.sourceRead, s1)
  }

  lemma SpansEarlier(b: ReadBack, s0: S.Slot, s1: S.Slot, s2: S.Slot)
    requires S.SlotInv(s0) && S.SlotInv(s1) && S.Grows(s0, s1) && Spans(b, s1, s2)
    ensures Spans(b, s0, s2)
  {
    hide S.SlotInv, S.Grows;
    S.GrowsTransitive(s0, s1, b.outputSeen);
  }

  /** Neither the reservation nor the artifact was removed, or rewritten by a worker that
      had read it before a removal. */
  predicate Retained(i0: R.World, i1: R.World, s0: S.Slot, s1: S.Slot, ref: RefId) {
    R.Disturbances(i1, ref) == R.Disturbances(i0, ref) && Undisturbed(s0, s1, ref)
  }

  predicate Settled(s: S.Slot, s': S.Slot, caller: Caller, operationKey: string) {
    && Undisturbed(s, s', A.OperationOutput(caller, operationKey))
    && Undisturbed(s, s', A.OperationSource(caller, operationKey))
  }

  predicate StoredFor(m: A.Meta, input: SaveInput, stored: S.Slot) {
    && OutputRef(input) in stored.artifacts.records && stored.artifacts.records[OutputRef(input)].value == m
    && m.refId == OutputRef(input) && m.owner == input.caller
  }

  /** What a save leaves: whether it found its operation published already, the moment its
      source is seen in store, and the terms and limits of the save that made the record. */
  datatype Left = Left(replayed: bool, sourced: S.Slot, terms: R.Terms, limits: R.Limits, edge: S.EdgeId,
                       checkedAt: int)

  function Nothing(input: SaveInput, s: S.Slot): Left {
    Left(false, s, R.Terms(OutputRef(input), input.caller, FingerprintOf(input), 0, 0), R.Limits(0, None), 0, 0)
  }

  function LimitsOf(ttlSeconds: int, input: SaveInput, authority: Authority): R.Limits {
    R.Limits(ttlSeconds * 1000,
             if input.externalSourceRef.Some? && authority.first.Some? then Some(authority.first.value.0) else None)
  }

  /** The canonical record of this save, made of its source and derived from its external one. */
  predicate SavedAs(m: A.Meta, input: SaveInput) {
    && m.refId == OutputRef(input) && m.owner == input.caller && m.contentHash == A.Hash(input.payload)
    && m.details.Canonical? && m.details.sourceRefId == SourceRef(input)
    && m.details.externalSourceRef == input.externalSourceRef
  }

  predicate SourceSaved(s: S.Slot, input: SaveInput) {
    && SourceRef(input) in s.artifacts.records
    && var m := s.artifacts.records[SourceRef(input)].value;
    && m.owner == input.caller && m.contentHash == A.Hash(input.sourceBytes)
    && m.details == A.Source(input.mimeType, input.filename)
  }

  /** It expires within the time to live, the source's own expiry and the authority's word. */
  predicate WithinLimits(m: A.Meta, input: SaveInput, left: Left) {
    && left.terms.fingerprint == FingerprintOf(input) && m.expiresAt == left.terms.expiresAt
    && m.expiresAt <= left.terms.createdAt + left.limits.ttlMs
    && (input.sourceExpiresAt.Some? ==> m.expiresAt <= input.sourceExpiresAt.value)
    && (input.externalSourceRef.Some? ==>
          left.limits.authorityExpiresAt.Some? && m.expiresAt <= left.limits.authorityExpiresAt.value)
  }

  /** The output is registered for its external source, so the source's revocation finds it. */
  predicate Traceable(s: S.Slot, input: SaveInput, edge: S.EdgeId) {
    input.externalSourceRef.Some? ==> D.RegisteredFor(s, edge, OutputRef(input))
  }

  /** The authority knows the external source by the very bytes given. */
  predicate VouchedFor(input: SaveInput, authority: Authority) {
    authority.first.Some? && authority.first.value.1 == A.Hash(input.sourceBytes)
  }

  function EdgeOf(w: R.World, t: R.Terms): S.EdgeId {
    if t in w.placed && w.placed[t].edge.Some? then w.placed[t].edge.value else 0
  }

  lemma StandsUntil(s: S.Slot, s': S.Slot)
    requires S.Grows(s, s')
    ensures Tombstoned(s) ==> Tombstoned(s')
  {
  }

  /** With the edge it is registered under, what has been placed may be published. */
  lemma PlacedIsRegistered(c: R.Claim, p: R.Claim, input: SaveInput, expiresAt: int, s: S.Slot)
    requires R.PlacedFor(c.terms, c.placement) && TermsFor(c.terms, input, expiresAt)
    requires p == if input.externalSourceRef.Some? && p.placement.edge.Some?
                  then c.(placement := c.placement.(edge := p.placement.edge)) else c
    requires input.externalSourceRef.Some? ==>
               p.placement.edge.Some? && D.RegisteredFor(s, p.placement.edge.value, OutputRef(input))
    ensures R.PlacedFor(p.terms, p.placement) && Registered(p.placement, s)
  {
  }

  predicate NeverDropped(w: R.World, s: S.Slot, input: SaveInput) {
    && w.swept[OutputRef(input)] == 0 && s.artifacts.removed[OutputRef(input)] == 0
    && s.artifacts.removed[SourceRef(input)] == 0
  }

  predicate TermsFor(t: R.Terms, input: SaveInput, expiresAt: int) {
    && t.ref == OutputRef(input) && t.owner == input.caller && t.fingerprint == FingerprintOf(input)
    && t.expiresAt == expiresAt
  }

  lemma LawfulHere(w: R.World, t: R.Terms)
    requires R.WorldInv(w) && t in w.granted
    ensures R.Lawful(t, w.granted[t])
  {
  }

  lemma GrantsStay(w: R.World, w': R.World, t: R.Terms)
    requires R.Grows(w, w') && t in w.granted
    ensures t in w'.granted
  {
  }

  lemma PutsOf(s: S.Slot, ref: RefId)
    requires S.SlotInv(s) && ref in s.artifacts.records
    ensures A.IdentityOf(s.artifacts.records[ref].value) in s.artifacts.puts
  {
  }

  lemma PutAsSaved(input: SaveInput, expiresAt: int, sm: A.Meta, om: A.Meta, at: int, outputAt: int, s1: S.Slot,
          s2: S.Slot)
    requires A.SameArtifact(sm, D.MetaOf(SourceToPut(input, expiresAt), |input.sourceBytes|, at))
    requires A.SameArtifact(om, D.MetaOf(OutputToPut(input, expiresAt), |input.payload|, outputAt))
    requires SourceRef(input) in s1.artifacts.records && s1.artifacts.records[SourceRef(input)].value == sm
    requires OutputRef(input) in s2.artifacts.records && s2.artifacts.records[OutputRef(input)].value == om
    ensures SavedAs(om, input) && SourceSaved(s1, input) && om.expiresAt == expiresAt && StoredFor(om, input, s2)
    ensures sm.refId == SourceRef(input)
  {
  }

  lemma PlacedAsReserved(t: R.Terms, input: SaveInput, expiresAt: int, sm: A.Meta, om: A.Meta, at: int, outputAt: int)
    requires TermsFor(t, input, expiresAt)
    requires A.SameArtifact(sm, D.MetaOf(SourceToPut(input, expiresAt), |input.sourceBytes|, at))
    requires A.SameArtifact(om, D.MetaOf(OutputToPut(input, expiresAt), |input.payload|, outputAt))
    ensures R.PlacedFor(t, R.Placement(A.IdentityOf(om), A.IdentityOf(sm), None))
  {
  }

  /** What a replay finds is what the publication had in place, where nothing was dropped. */
  lemma ReplayIsSaved(w: R.World, w': R.World, s1: S.Slot, stored: S.Slot, s2: S.Slot, input: SaveInput, m: A.Meta)
    requires R.WorldInv(w) && R.Grows(w, w') && InPlace(w, s1) && S.Grows(s1, stored) && S.SlotInv(stored)
    requires S.Grows(stored, s2) && NeverDropped(w', s2, input) && StoredFor(m, input, stored)
    requires OutputRef(input) in w.records && w.records[OutputRef(input)].value.published
    requires w.records[OutputRef(input)].value.fingerprint == FingerprintOf(input) && input.operationKey.Some?
    requires w.records[OutputRef(input)].value.owner == input.caller
    ensures SavedAs(m, input) && SourceSaved(stored, input)
    ensures m.expiresAt == w.records[OutputRef(input)].value.expiresAt
  {
    var ref, sourceRef := OutputRef(input), SourceRef(input);
    var t := R.TermsOf(ref, w.records[ref].value);
    assert w.swept[ref] <= w'.swept[ref];
    var p := w.placed[t];
    assert Stored(p, s1) && R.PlacedFor(t, p);
    assert stored.artifacts.removed[ref] <= s2.artifacts.removed[ref];
    assert stored.artifacts.removed[sourceRef] <= s2.artifacts.removed[sourceRef];
    assert p.output in stored.artifacts.puts && p.source in stored.artifacts.puts;
    assert p.output.refId == ref && p.source.refId == sourceRef;
  }

  lemma ReplayIsTraceable(w: R.World, w': R.World, s1: S.Slot, s2: S.Slot, input: SaveInput)
    requires R.WorldInv(w) && R.Grows(w, w') && InPlace(w, s1) && S.Grows(s1, s2)
    requires OutputRef(input) in w.records && w.records[OutputRef(input)].value.published
    requires NeverDropped(w', s2, input) && w.records[OutputRef(input)].value.fingerprint == FingerprintOf(input)
    ensures Traceable(s2, input, EdgeOf(w, R.TermsOf(OutputRef(input), w.records[OutputRef(input)].value)))
  {
    hide S.Evolves;
    var ref := OutputRef(input);
    var t := R.TermsOf(ref, w.records[ref].value);
    assert w.swept[ref] <= w'.swept[ref];
    var p := w.placed[t];
    assert Registered(p, s1) && R.PlacedFor(t, p);
  }

  datatype Compensation = Gone | NotOurs | LeftToSweep

  predicate Compensated(end: Compensation, w: A.World, identity: (RefId, A.Digest), expiresAt: int) {
    match end
    case Gone => identity.0 !in w.records
    case NotOurs =>
      && identity.0 in w.records
      && (w.records[identity.0].value.contentHash != identity.1 || w.records[identity.0].value.expiresAt != expiresAt)
    case LeftToSweep => identity.0 in w.records
  }

  function SourceToPut(i: SaveInput, expiresAt: int): D.PutInput {
    D.PutInput(SourceRef(i), i.caller, A.Hash(i.sourceBytes), expiresAt, A.Verified, A.Source(i.mimeType, i.filename))
  }

  function OutputToPut(i: SaveInput, expiresAt: int): D.PutInput {
    D.PutInput(OutputRef(i), i.caller, A.Hash(i.payload), expiresAt, A.Verified,
               A.Canonical(SourceRef(i), "1", i.externalSourceRef))
  }

  lemma TombstoneStays(s: S.Slot, s': S.Slot)
    requires S.Grows(s, s') && Tombstoned(s)
    ensures Tombstoned(s')
  {
  }

  lemma NotedStays(s: S.Slot, s': S.Slot, edge: Option<S.EdgeId>)
    requires S.Grows(s, s') && Noted(s, edge)
    ensures Noted(s', edge)
  {
  }

  lemma FingerprintStays(w0: R.World, w1: R.World, at: R.World, w2: R.World, input: SaveInput)
    requires R.Grows(w0, w1) && R.Grows(w1, at) && R.Grows(at, w2)
    requires OutputRef(input) in w1.records && w1.records[OutputRef(input)].value.fingerprint == FingerprintOf(input)
    requires OutputRef(input) in at.records
    ensures R.Disturbances(w2, OutputRef(input)) == R.Disturbances(w0, OutputRef(input)) ==>
              at.records[OutputRef(input)].value.fingerprint == FingerprintOf(input)
  {
    var ref := OutputRef(input);
    assert w0.swept[ref] <= w1.swept[ref] <= at.swept[ref] <= w2.swept[ref];
    assert w0.stale[ref] <= w1.stale[ref] <= at.stale[ref] <= w2.stale[ref];
  }

  lemma ReservationsMonotone(w0: R.World, w1: R.World, at: R.World, w2: R.World, ref: RefId)
    requires R.Grows(w0, w1) && R.Grows(w1, at) && R.Grows(at, w2)
    ensures R.Disturbances(w0, ref) <= R.Disturbances(w2, ref)
  {
    assert w0.swept[ref] <= w1.swept[ref] <= at.swept[ref] <= w2.swept[ref];
    assert w0.stale[ref] <= w1.stale[ref] <= at.stale[ref] <= w2.stale[ref];
  }

  lemma DisturbancesGrow(s0: S.Slot, s1: S.Slot, s2: S.Slot, ref: RefId)
    requires S.Grows(s0, s1) && S.Grows(s1, s2)
    ensures Undisturbed(s0, s2, ref) ==> Undisturbed(s1, s2, ref)
  {
    assert s0.artifacts.removed[ref] <= s1.artifacts.removed[ref] <= s2.artifacts.removed[ref];
    assert s0.artifacts.stale[ref] <= s1.artifacts.stale[ref] <= s2.artifacts.stale[ref];
  }

  lemma RefIdOf(s: S.Slot, ref: RefId)
    requires S.SlotInv(s) && ref in s.artifacts.records
    ensures s.artifacts.records[ref].value.refId == ref
  {
    assert A.RecordInv(ref, s.artifacts.records[ref]);
  }

  lemma SpanOfOutput(b: ReadBack, s0: S.Slot, s1: S.Slot)
    requires S.SlotInv(s0) && Spans(b, s0, s1)
    ensures Moment(s0, b.outputSeen, s1)
  {
    hide S.Evolves, S.SlotInv;
    S.GrowsTransitive(b.outputSeen, b.sourceSeen, b.outputRead);
    S.GrowsTransitive(b.outputSeen, b.outputRead, b.sourceRead);
    S.GrowsTransitive(b.outputSeen, b.sourceRead, s1);
  }

  /** Between two moments of an undisturbed stretch a stored artifact keeps its content. */
  lemma SameContent(s0: S.Slot, a: S.Slot, b: S.Slot, s1: S.Slot, ref: RefId)
    requires S.Grows(s0, a) && S.Grows(a, b) && S.Grows(b, s1) && Undisturbed(s0, s1, ref)
    requires ref in a.artifacts.records && ref in b.artifacts.records
    ensures b.artifacts.records[ref].value.contentHash == a.artifacts.records[ref].value.contentHash
  {
    var w0, wa, wb, w1 := s0.artifacts, a.artifacts, b.artifacts, s1.artifacts;
    assert w0.removed[ref] <= wa.removed[ref] <= wb.removed[ref] <= w1.removed[ref];
    assert w0.stale[ref] <= wa.stale[ref] <= wb.stale[ref] <= w1.stale[ref];
    assert A.Advances(wa.records[ref].value, wb.records[ref].value);
  }

  lemma ReadBackHashes(b: ReadBack, f: R.Fingerprint, caller: Caller, operationKey: string, blobs: Blobs, s0: S.Slot,
          s1: S.Slot)
    requires IsReadBack(b, f, A.OperationOutput(caller, operationKey), A.OperationSource(caller, operationKey), blobs)
    requires S.SlotInv(s0) && Spans(b, s0, s1)
    ensures blobs.outputBytes.Some? && blobs.sourceBytes.Some?
    ensures Settled(s0, s1, caller, operationKey) ==>
              A.Hash(blobs.outputBytes.value) == f.outputHash && A.Hash(blobs.sourceBytes.value) == f.sourceHash
  {
    hide S.Evolves, S.SlotInv, Undisturbed;
    if Settled(s0, s1, caller, operationKey) {
      S.GrowsTransitive(b.outputSeen, b.sourceSeen, b.outputRead);
      S.GrowsTransitive(b.outputRead, b.sourceRead, s1);
      SameContent(s0, b.outputSeen, b.outputRead, s1, A.OperationOutput(caller, operationKey));
      S.GrowsTransitive(s0, b.outputSeen, b.sourceSeen);
      S.GrowsTransitive(b.sourceSeen, b.outputRead, b.sourceRead);
      SameContent(s0, b.sourceSeen, b.sourceRead, s1, A.OperationSource(caller, operationKey));
    }
  }
}
