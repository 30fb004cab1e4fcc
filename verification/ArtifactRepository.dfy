/** `DurableArtifactRepository` (src/core/durable-artifacts.ts): artifact records and the
    outputs derived from an external source, in one store. The object holds the artifact
    records together with the head and edges of one source of one caller; other sources
    have other heads and edges. Before each store or blob call other workers may take
    any steps of OutputStack, and the blob store answers as it likes. */
module ArtifactRepository {
  import opened Basics
  import opened DurableStore
  import opened Artifacts
  import S = OutputStack

  type Pid = nat

  /** What a caller of `put` hands over beside the bytes and the time. */
  datatype PutInput = PutInput(
    refId: RefId, owner: Caller, contentHash: Digest, expiresAt: int, verification: Verification, details: Details)

  function MetaOf(i: PutInput, byteSize: nat, nowMs: int): Meta {
    Meta(i.refId, i.owner, i.contentHash, byteSize, i.expiresAt, i.verification, Active, None, nowMs, nowMs, i.details)
  }

  datatype Transition = Updated(record: Record<Meta>) | Conflicted | Missing

  datatype Cleanup = Deleted | CleanupMissing | CleanupConflict | OwnerMismatch

  class DurableArtifactRepository {
    var s: S.Slot

    ghost predicate Valid() reads this { S.SlotInv(s) }

    constructor()
      ensures Valid() && s == S.EMPTY
    {
      s := S.EMPTY;
    }

    /** Any number of steps of any workers, as seen by one that holds no unpushed edge. */
    method Others()
      requires Valid()
      modifies this
      ensures Valid() && S.Grows(old(s), s)
    {
      S.GrowsReflexive(s);
    }

    /** Any number of steps of the workers other than `me`. */
    method Interfere(me: Pid)
      requires Valid()
      modifies this
      ensures Valid() && S.SlotRely(me, old(s), s)
    {
      S.SlotRelyReflexive(me, s);
    }

    method Step(me: Pid, a: S.Action, nowMs: int)
      requires Valid() && S.Enabled(me, s, a, nowMs)
      modifies this
      ensures Valid() && s == S.Next(me, old(s), a, nowMs) && S.Grows(old(s), s)
    {
      S.StepKeepsSlotInv(me, s, a, nowMs);
      S.StepGrows(me, s, a, nowMs);
      s := S.Next(me, s, a, nowMs);
    }

    method ArtifactStep(change: Action, nowMs: int)
      requires Valid() && Enabled(s.artifacts, change, nowMs)
      modifies this
      ensures Valid() && s == old(s).(artifacts := Next(old(s).artifacts, change, nowMs)) && S.Grows(old(s), s)
    {
      Step(0, S.OnArtifact(change), nowMs);
    }

    lemma GrowsHere()
      requires Valid()
      ensures S.Grows(s, s)
    {
      S.GrowsReflexive(s);
    }

    // ---------------------------------------------------------------- artifact records

    /** What `getForCaller` returns is the record as it is; an unknown caller is refused, and
        a record that does not decode throws. */
    method GetForCaller(ref: RefId, caller: Caller) returns (r: Try<Option<Record<Meta>>>, lifetime: nat)
      requires Valid()
      modifies this
      ensures Valid() && S.Grows(old(s), s) && lifetime == s.artifacts.removed[ref]
      ensures r == Fetched(s.artifacts, ref, caller)
    {
      Others();
      lifetime := s.artifacts.removed[ref];
      if ref !in s.artifacts.records { return Answered(None), lifetime; }
      var record := s.artifacts.records[ref];
      if !Decodes(record) || !OwnedBy(record.value, caller) { return Threw, lifetime; }
      r := Answered(Some(record));
    }

    /** Created with the time of the put as its own, or exactly the same artifact, put at
        whatever time, was already there. */
    method PutArtifact(input: PutInput, bytes: string, nowMs: int, blobConflict: bool)
      returns (r: Try<(bool, Record<Meta>)>)
      requires Valid()
      modifies this
      ensures Valid() && S.Grows(old(s), s)
      ensures r.Answered? ==>
                && input.contentHash == Hash(bytes) && |bytes| > 0 && 0 <= nowMs < input.expiresAt
                && input.refId in s.artifacts.records && s.artifacts.records[input.refId] == r.value.1
                && Decodes(r.value.1)
                && SameArtifact(r.value.1.value, MetaOf(input, |bytes|, nowMs))
      ensures r.Answered? && r.value.0 ==> r.value.1.value == MetaOf(input, |bytes|, nowMs)
    {
      S.GrowsReflexive(s);
      if input.contentHash != Hash(bytes) || |bytes| < 1 || nowMs < 0 || input.expiresAt <= nowMs { return Threw; }
      if blobConflict { return Threw; }
      var meta := MetaOf(input, |bytes|, nowMs);
      ghost var s0 := s;
      Others();
      ghost var s1 := s;
      if meta.refId in s.artifacts.records {
        var existing := s.artifacts.records[meta.refId];
        return if Decodes(existing) && SameArtifact(existing.value, meta) then Answered((false, existing)) else Threw;
      }
      ArtifactStep(Put(meta), nowMs);
      S.GrowsTransitive(s0, s1, s);
      r := Answered((true, s.artifacts.records[meta.refId]));
    }

    /** `cas`: from the revision the caller names, which must be the one that was read. It
        throws before the swap when the new metadata would be older than its creation, and
        after it when what it left, or the record in its way, does not decode. */
    method Cas(ref: RefId, current: Record<Meta>, lifetime: nat, expected: nat, change: Change, nowMs: int,
            ghost readIn: S.Slot)
      returns (r: Try<Transition>)
      requires Valid() && S.SlotInv(readIn) && S.Grows(readIn, s) && ref in readIn.artifacts.records
              && readIn.artifacts.records[ref] == current && readIn.artifacts.removed[ref] == lifetime
      requires Decodes(current) && (nowMs >= current.value.createdAt ==> Applies(current.value, change, nowMs))
      modifies this
      ensures Valid() && S.Grows(old(s), s)
      ensures r.Answered? && r.value.Updated? ==>
                && current.revision == expected && ref in s.artifacts.records
                && s.artifacts.records[ref] == r.value.record
                && r.value.record.value == After(current.value, change, nowMs) && Decodes(r.value.record)
                && r.value.record.revision == expected + 1
      ensures r == Answered(Transition.Missing) ==> ref !in s.artifacts.records
      ensures r == Answered(Conflicted) || r.Threw? ==> ref in s.artifacts.records || s == old(s)
    {
      hide S.SlotInv, S.Grows, Applies, After;
      S.GrowsReflexive(s);
      if current.revision != expected { return Answered(Conflicted); }
      if nowMs < current.value.createdAt { return Threw; }
      ghost var s0 := s;
      Others();
      ghost var s1 := s;
      S.GrowsTransitive(readIn, s0, s1);
      if ref !in s.artifacts.records { return Answered(Transition.Missing); }
      if s.artifacts.records[ref].revision != expected {
        return if Decodes(s.artifacts.records[ref]) then Answered(Conflicted) else Threw;
      }
      ArtifactCanSwap(readIn, s1, ref);
      ArtifactStep(Rewrite(ref, Seen(current.value, current.revision, lifetime), change), nowMs);
      S.GrowsTransitive(s0, s1, s);
      r := if Decodes(s.artifacts.records[ref]) then Answered(Transition.Updated(s.artifacts.records[ref])) else Threw;
    }

    method MarkVerified(ref: RefId, caller: Caller, expected: nat, nowMs: int, blobMatches: bool)
      returns (r: Try<Transition>)
      requires Valid()
      modifies this
      ensures Valid() && S.Grows(old(s), s)
      ensures r.Answered? && r.value.Updated? ==>
                blobMatches && r.value.record.value.verification == Verified
                        && r.value.record.value.status == Active && OwnedBy(r.value.record.value, caller)
    {
      hide S.SlotInv, S.Grows;
      ghost var s0 := s;
      var current, lifetime := GetForCaller(ref, caller);
      ghost var s1 := s;
      if current.Threw? { return Threw; }
      if current.value.None? { return Answered(Transition.Missing); }
      if current.value.value.value.status != Active || !blobMatches { return Threw; }
      S.GrowsReflexive(s1);
      r := Cas(ref, current.value.value, lifetime, expected, Verify, nowMs, s1);
      S.GrowsTransitive(s0, s1, s);
    }

    /** Bytes are returned exactly if they are the content the record names, and the record
        was active, verified, unexpired and at one revision on both sides of the blob read. */
    method ReadVerified(ref: RefId, caller: Caller, nowMs: int, maxBytes: nat, blob: Option<string>)
      returns (r: Try<string>, ghost before: S.Slot)
      requires Valid()
      modifies this
      ensures Valid() && S.SlotInv(before) && S.Grows(old(s), s) && S.Grows(old(s), before) && S.Grows(before, s)
      ensures r == Read(before.artifacts, s.artifacts, ref, caller, nowMs, maxBytes, blob)
    {
      hide S.SlotInv, S.Grows;
      ghost var s0 := s;
      var current, lifetime := GetForCaller(ref, caller);
      before := s;
      S.GrowsReflexive(s);
      r := Threw;
      if current.Threw? || current.value.None? { return; }
      var record := current.value.value;
      if nowMs >= record.value.expiresAt {
        if record.value.status == Active {
          var _ := Cas(ref, record, lifetime, record.revision, ExpireIt, nowMs, before);
          S.GrowsTransitive(s0, before, s);
        }
        return;
      }
      if record.value.status != Active || record.value.verification != Verified { return; }
      Others();
      ghost var s2 := s;
      S.GrowsTransitive(s0, before, s2);
      if blob.None? { return; }
      var latest, _ := GetForCaller(ref, caller);
      S.GrowsTransitive(s0, s2, s);
      S.GrowsTransitive(before, s2, s);
      if latest.Threw? || latest.value.None? { return; }
      var now := latest.value.value;
      if now.revision != record.revision || now.value.status != Active || now.value.verification != Verified { return; }
      if |blob.value| != now.value.byteSize || |blob.value| > maxBytes || Hash(blob.value) != now.value.contentHash {
        return;
      }
      r := Answered(blob.value);
    }

    method DeleteExplicit(ref: RefId, caller: Caller, expected: nat, nowMs: int) returns (r: Try<Transition>)
      requires Valid()
      modifies this
      ensures Valid() && S.Grows(old(s), s)
      ensures r.Answered? && r.value.Updated? ==>
                ref in s.artifacts.records && s.artifacts.records[ref] == r.value.record
                        && r.value.record.value.status == LogicallyDeleted && OwnedBy(r.value.record.value, caller)
      ensures r.Answered? && r.value.Missing? ==> ref !in s.artifacts.records
      ensures r.Threw? || r.value.Conflicted? ==> ref in s.artifacts.records
    {
      hide S.SlotInv, S.Grows;
      ghost var s0 := s;
      var current, lifetime := GetForCaller(ref, caller);
      ghost var s1 := s;
      if current.Threw? { return Threw; }
      if current.value.None? { return Answered(Transition.Missing); }
      if current.value.value.value.status != Active { return Threw; }
      S.GrowsReflexive(s1);
      r := Cas(ref, current.value.value, lifetime, expected, DeleteIt, nowMs, s1);
      S.GrowsTransitive(s0, s1, s);
    }

    /** One record of an expiry page, as the scan gave it: revoked if that very record is
        still there when the swap lands. */
    method ExpireDueOne(ref: RefId, nowMs: int) returns (r: Try<Transition>)
      requires Valid()
      modifies this
      ensures Valid() && S.Grows(old(s), s)
      ensures r.Answered? && r.value.Updated? ==>
                r.value.record.value.status == LogicallyExpired && r.value.record.value.expiresAt <= nowMs
    {
      hide S.SlotInv, S.Grows;
      ghost var s0 := s;
      Others();
      ghost var s1 := s;
      S.GrowsReflexive(s1);
      if ref !in s.artifacts.records { return Answered(Transition.Missing); }
      var record, lifetime := s.artifacts.records[ref], s.artifacts.removed[ref];
      if !Decodes(record) { return Threw; }
      if record.value.status != Active || record.value.expiresAt > nowMs { return Answered(Conflicted); }
      r := Cas(ref, record, lifetime, record.revision, ExpireIt, nowMs, s1);
      S.GrowsTransitive(s0, s1, s);
    }

    method MarkCleanupPending(ref: RefId, caller: Caller, expected: nat, nowMs: int) returns (r: Try<Transition>)
      requires Valid()
      modifies this
      ensures Valid() && S.Grows(old(s), s)
      ensures r.Answered? && r.value.Updated? ==>
                && ref in s.artifacts.records && s.artifacts.records[ref] == r.value.record
                && r.value.record.value.status == PhysicalCleanupPending && OwnedBy(r.value.record.value, caller)
      ensures r.Answered? && r.value.Missing? ==> ref !in s.artifacts.records
      ensures r.Threw? || r.value.Conflicted? ==> ref in s.artifacts.records
    {
      hide S.SlotInv, S.Grows;
      ghost var s0 := s;
      var current, lifetime := GetForCaller(ref, caller);
      ghost var s1 := s;
      if current.Threw? { return Threw; }
      if current.value.None? { return Answered(Transition.Missing); }
      var status := current.value.value.value.status;
      if status != LogicallyExpired && status != LogicallyDeleted { return Threw; }
      S.GrowsReflexive(s1);
      r := Cas(ref, current.value.value, lifetime, expected, MarkPending, nowMs, s1);
      S.GrowsTransitive(s0, s1, s);
    }

    /** Blob first, then the record; deleted or missing means it is gone. */
    method CleanupPending(ref: RefId, caller: Caller, expected: nat, ownerMismatch: bool) returns (r: Try<Cleanup>)
      requires Valid()
      modifies this
      ensures Valid() && S.Grows(old(s), s)
      ensures r == Answered(Cleanup.Deleted) || r == Answered(CleanupMissing) ==> ref !in s.artifacts.records
      ensures r != Answered(Cleanup.Deleted) && r != Answered(CleanupMissing) ==> ref in s.artifacts.records
      ensures r == Answered(Cleanup.Deleted) ==> s.artifacts.removed[ref] > old(s).artifacts.removed[ref]
    {
      hide S.SlotInv, S.Grows;
      ghost var s0 := s;
      var current, lifetime := GetForCaller(ref, caller);
      ghost var s1 := s;
      if current.Threw? { return Threw; }
      if current.value.None? { return Answered(CleanupMissing); }
      var record := current.value.value;
      if record.value.status != PhysicalCleanupPending { return Threw; }
      if record.revision != expected { return Answered(CleanupConflict); }
      if ownerMismatch { return Answered(OwnerMismatch); }
      Others();
      ghost var s2 := s;
      S.GrowsTransitive(s0, s1, s2);
      if ref !in s.artifacts.records { return Answered(CleanupMissing); }
      if s.artifacts.records[ref].revision != expected { return Answered(CleanupConflict); }
      ArtifactCanSwap(s1, s2, ref);
      ArtifactStep(Remove(ref, Seen(record.value, record.revision, lifetime)), 0);
      S.GrowsTransitive(s0, s2, s);
      RemovalsGrow(s0, s2, ref);
      r := Answered(Cleanup.Deleted);
    }

    /** One record of a sweep page. A canonical record goes only after its source record
        was seen to be gone; `checked` is that moment. */
    method SweepOne(ref: RefId, raw: Record<Meta>, lifetime: nat, nowMs: int, ownerMismatch: bool,
            ghost scanned: S.Slot)
      returns (deleted: bool, ghost checked: S.Slot)
      requires Valid() && S.SlotInv(scanned) && S.Grows(scanned, s) && ref in scanned.artifacts.records
              && scanned.artifacts.records[ref] == raw && scanned.artifacts.removed[ref] == lifetime
      modifies this
      ensures Valid() && S.Grows(old(s), s)
      ensures deleted ==>
                && ref !in s.artifacts.records && s.artifacts.removed[ref] > old(s).artifacts.removed[ref]
                && (raw.value.status == Active ==> raw.value.expiresAt <= nowMs)
                && S.Grows(old(s), checked) && S.Grows(checked, s)
                && (raw.value.details.Canonical? ==> raw.value.details.sourceRefId !in checked.artifacts.records)
    {
      hide S.SlotInv, S.Grows;
      deleted, checked := false, s;
      ghost var s0 := s;
      S.GrowsReflexive(s);
      if !Decodes(raw) || (raw.value.status == Active && raw.value.expiresAt > nowMs) { return; }
      if raw.value.details.Canonical? {
        var sourceRef := raw.value.details.sourceRefId;
        Others();
        S.GrowsTransitive(scanned, s0, s);
        checked := s;
        S.GrowsReflexive(s);
        if sourceRef in s.artifacts.records {
          var source, life := s.artifacts.records[sourceRef], s.artifacts.removed[sourceRef];
          if Decodes(source) && source.value.owner == raw.value.owner && source.value.status == Active
                  && raw.value.cleanupReason == Some(BecauseDeleted) {
            var _ := Cas(sourceRef, source, life, source.revision, DeleteIt, nowMs, checked);
            S.GrowsTransitive(s0, checked, s);
          }
          return;
        }
      }
      ghost var s1 := s;
      deleted := SweepRemove(ref, raw, lifetime, nowMs, ownerMismatch, scanned);
      S.GrowsTransitive(s0, s1, s);
      S.GrowsTransitive(checked, s1, s);
      RemovalsGrow(s0, s1, ref);
    }

    method SweepRemove(ref: RefId, raw: Record<Meta>, lifetime: nat, nowMs: int, ownerMismatch: bool,
            ghost scanned: S.Slot)
      returns (deleted: bool)
      requires Valid() && S.SlotInv(scanned) && S.Grows(scanned, s) && ref in scanned.artifacts.records
              && scanned.artifacts.records[ref] == raw && scanned.artifacts.removed[ref] == lifetime
      requires Decodes(raw) && (raw.value.status == Active ==> raw.value.expiresAt <= nowMs)
      modifies this
      ensures Valid() && S.Grows(old(s), s)
      ensures deleted ==> ref !in s.artifacts.records && s.artifacts.removed[ref] > old(s).artifacts.removed[ref]
    {
      hide S.SlotInv, S.Grows;
      deleted := false;
      ghost var s0 := s;
      S.GrowsReflexive(s);
      var current, life := raw, lifetime;
      ghost var readIn := scanned;
      S.GrowsReflexive(s);
      if raw.value.status != PhysicalCleanupPending {
        var marked := Cas(ref, raw, lifetime, raw.revision, SweepPending, nowMs, scanned);
        ghost var s1 := s;
        if marked.Threw? || !marked.value.Updated? { return; }
        current, life, readIn := marked.value.record, s.artifacts.removed[ref], s1;
        Others();
        S.GrowsTransitive(s0, s1, s);
        if ref !in s.artifacts.records || s.artifacts.records[ref].revision != current.revision { return; }
      } else {
        S.GrowsTransitive(scanned, s0, s);
      }
      if ownerMismatch { return; }
      ghost var s2 := s;
      Others();
      ghost var s3 := s;
      S.GrowsTransitive(s0, s2, s3);
      S.GrowsTransitive(readIn, s2, s3);
      if ref !in s.artifacts.records || s.artifacts.records[ref].revision != current.revision { return; }
      ArtifactCanSwap(readIn, s3, ref);
      ArtifactStep(Remove(ref, Seen(current.value, current.revision, life)), nowMs);
      S.GrowsTransitive(s0, s3, s);
      RemovalsGrow(s0, s3, ref);
      deleted := true;
    }

    // ---------------------------------------------------------------- the outputs of an external source

    method IsExternalSourceRevoked(me: Pid) returns (revoked: bool)
      requires Valid()
      modifies this
      ensures Valid() && S.SlotRely(me, old(s), s)
      ensures revoked <==> s.head.Some? && s.head.value.value.revoked
    {
      Interfere(me);
      revoked := s.head.Some? && s.head.value.value.revoked;
    }

    method EnsureHead(me: Pid, revoked: bool, nowMs: int)
      requires Valid()
      modifies this
      ensures Valid() && S.Grows(old(s), s) && s.head.Some?
      ensures forall e | e in old(s).edges && e in old(s).maker && old(s).maker[e] == me
              && e !in old(s).registered :: e in s.edges && e !in s.registered
    {
      hide S.SlotInv;
      Interfere(me);
      if s.head.None? {
        ghost var s1 := s;
        Step(me, S.CreateHead(revoked), nowMs);
        S.GrowsTransitive(old(s), s1, s);
      }
    }

    /** True: the output is registered by this very call, so the source was not revoked. */
    method RegisterExternalOutput(me: Pid, outputRefId: RefId, nowMs: int, uuids: seq<S.EdgeId>)
      returns (ok: bool, edge: S.EdgeId)
      requires Valid()
      modifies this
      ensures Valid() && S.Grows(old(s), s)
      ensures ok ==> edge !in old(s).registered && edge in s.registered && edge in s.made && s.made[edge] == outputRefId
                     && s.head.Some? && s.head.value.value == S.Head(false, Some(edge))
      ensures ok ==> !(old(s).head.Some? && old(s).head.value.value.revoked)
    {
      hide S.SlotInv;
      edge := 0;
      EnsureHead(me, false, nowMs);
      for attempt := 0 to 16
        invariant Valid() && S.Grows(old(s), s) && s.head.Some?
      {
        ghost var s0 := s;
        Interfere(me);
        ghost var s1 := s;
        S.GrowsTransitive(old(s), s0, s1);
        var current := s.head.value;
        if current.value.revoked {
          ok := false;
          return;
        }
        ok, edge := PushOne(me, outputRefId, current, nowMs, if attempt < |uuids| then uuids[attempt] else 0);
        S.GrowsTransitive(old(s), s1, s);
        if ok { return; }
      }
      ok := false;
    }

    /** One attempt: a fresh edge pointing at the head that was read, a swap of the head,
        and the edge removed again if the swap lost. */
    method PushOne(me: Pid, outputRefId: RefId, current: Record<S.Head>, nowMs: int, uuid: S.EdgeId)
      returns (ok: bool, edge: S.EdgeId)
      requires Valid() && s.head == Some(current) && !current.value.revoked
      modifies this
      ensures Valid() && S.Grows(old(s), s) && s.head.Some?
      ensures ok ==> edge !in old(s).registered && edge in s.registered && edge in s.made && s.made[edge] == outputRefId
                     && s.head.value.value == S.Head(false, Some(edge))
    {
      hide S.SlotInv;
      ghost var s0 := s;
      Interfere(me);
      ghost var s1 := s;
      edge := Unused(uuid);
      S.NeverMade(s0, s1, edge);
      Step(me, S.MakeEdge(edge, outputRefId, current.value.edge), nowMs);
      ghost var s2 := s;
      S.GrowsTransitive(s0, s1, s2);
      Interfere(me);
      ghost var s3 := s;
      S.GrowsTransitive(s0, s2, s3);
      assert edge in s3.edges && s3.edges[edge] == S.Edge(outputRefId, current.value.edge);
      ok := s.head.value.revision == current.revision;
      if ok {
        Step(me, S.Push(edge), nowMs);
        S.GrowsTransitive(s0, s3, s);
        return;
      }
      Interfere(me);
      ghost var s4 := s;
      S.SlotRelyTransitive(me, s2, s3, s4);
      S.GrowsTransitive(s0, s3, s4);
      Step(me, S.DropEdge(edge), nowMs);
      S.GrowsTransitive(s0, s4, s);
    }

    /** A random name: the one drawn unless it has been used. */
    method Unused(uuid: S.EdgeId) returns (edge: S.EdgeId)
      requires Valid()
      ensures edge !in s.made
    {
      edge := uuid;
      if edge in s.made {
        var names := s.made.Keys;
        edge := 0;
        while edge in s.made
          invariant names <= s.made.Keys
          invariant forall e | e in s.made && e !in names :: e < edge
          decreases |names|
        {
          names := names - {edge};
          edge := edge + 1;
        }
      }
    }

    /** Tombstones the source, and names the top of what is left; None: nothing is. */
    method NextRevokedExternalOutput(me: Pid, nowMs: int) returns (r: Try<Option<(S.EdgeId, RefId)>>)
      requires Valid()
      modifies this
      ensures Valid() && S.Grows(old(s), s)
      ensures r.Answered? ==> s.head.Some? && s.head.value.value.revoked
      ensures r == Answered(None) ==> s.registered <= s.gone
      ensures r.Answered? && r.value.Some? ==> RegisteredFor(s, r.value.value.0, r.value.value.1)
    {
      hide S.SlotInv, S.Grows, S.SlotRely;
      EnsureHead(me, true, nowMs);
      for attempt := 0 to 16
        invariant Valid() && S.Grows(old(s), s) && s.head.Some?
      {
        ghost var s0 := s;
        Interfere(me);
        ghost var s1 := s;
        HeadStays(me, s0, s1);
        S.GrowsTransitive(old(s), s0, s1);
        var current := s.head.value;
        var retry := false;
        if !current.value.revoked {
          Interfere(me);
          ghost var s2 := s;
          HeadStays(me, s1, s2);
          S.GrowsTransitive(old(s), s1, s2);
          if s.head.value.revision != current.revision {
            retry := true;
          } else {
            Step(me, S.Revoke, nowMs);
            S.GrowsTransitive(old(s), s2, s);
          }
        }
        if !retry {
          ghost var s3 := s;
          r := TopOutput(me, current.value.edge);
          S.GrowsTransitive(old(s), s3, s);
          return;
        }
      }
      r := Threw;
    }

    method TopOutput(me: Pid, top: Option<S.EdgeId>) returns (r: Try<Option<(S.EdgeId, RefId)>>)
      requires Valid() && s.head.Some? && s.head.value.value == S.Head(true, top)
      modifies this
      ensures Valid() && S.Grows(old(s), s) && s.head.Some? && s.head.value.value.revoked
      ensures r == Answered(None) ==> s.registered <= s.gone
      ensures r.Answered? && r.value.Some? ==> RegisteredFor(s, r.value.value.0, r.value.value.1)
    {
      hide S.Chain, S.Distinct, Grows, WorldInv;
      S.GrowsReflexive(s);
      if top.None? {
        EmptyIsGone(s);
        return Answered(None);
      }
      S.TopIsStored(s);
      Interfere(me);
      if top.value !in s.edges { return Threw; }
      r := Answered(Some((top.value, s.edges[top.value].outputRefId)));
    }

    /** Pops the edge, once and only while it is on top: `at` is the moment it was popped,
        found not on top, or found swapped under another worker's revision. */
    method AcknowledgeRevokedExternalOutput(me: Pid, edge: S.EdgeId, nowMs: int)
      returns (r: Acknowledged, ghost at: S.Slot)
      requires Valid() && edge in s.registered && edge in s.gone && edge in s.made
      modifies this
      ensures Valid() && S.Grows(old(s), s) && S.Grows(old(s), at) && S.Grows(at, s)
      ensures r.Popped? ==> S.Top(at) == Some(edge) && edge in s.acknowledged
      ensures r.NotOnTop? ==> !(at.head.Some? && at.head.value.value == S.Head(true, Some(edge)))
      ensures r.LostTheSwap? ==> at.head.Some? && at.head.value.value == S.Head(true, Some(edge)) && s.head.Some?
                                 && s.head.value.revision > at.head.value.revision
      ensures r.EdgeMissing? ==> edge !in s.edges
    {
      hide S.SlotInv;
      ghost var s0 := s;
      Interfere(me);
      ghost var s1 := s;
      at := s1;
      S.GrowsReflexive(s1);
      if s.head.None? || s.head.value.value != S.Head(true, Some(edge)) { return NotOnTop, at; }
      var current := s.head.value;
      Interfere(me);
      ghost var s2 := s;
      S.GrowsTransitive(s0, s1, s2);
      if edge !in s.edges { return EdgeMissing, at; }
      var next := s.edges[edge].next;
      Interfere(me);
      ghost var s3 := s;
      S.GrowsTransitive(s0, s2, s3);
      S.GrowsTransitive(s1, s2, s3);
      if s.head.value.revision != current.revision { return LostTheSwap, at; }
      at := s3;
      S.MadeStays(s0, s2, edge);
      S.TopIsStored(s3);
      S.GrowsReflexive(s3);
      Step(me, S.Acknowledge(edge), nowMs);
      ghost var s4 := s;
      S.GrowsTransitive(s0, s3, s4);
      assert s.head.value.value == S.Head(true, next);
      DropAcknowledged(me, edge, nowMs);
      S.GrowsTransitive(s0, s4, s);
      S.GrowsTransitive(s3, s4, s);
      r := Popped;
    }

    /** The record of an edge that has been popped goes, unless it is gone already. */
    method DropAcknowledged(me: Pid, edge: S.EdgeId, nowMs: int)
      requires Valid() && edge in s.acknowledged
      modifies this
      ensures Valid() && S.Grows(old(s), s) && edge in s.acknowledged && edge !in s.edges
    {
      hide S.SlotInv;
      ghost var s0 := s;
      Interfere(me);
      ghost var s1 := s;
      if edge in s.edges {
        Step(me, S.DropAcknowledged(edge), nowMs);
        S.GrowsTransitive(s0, s1, s);
      }
    }

    /** Notes that the output of an edge is absent, at a moment when it is. */
    method NoteGone(me: Pid, edge: S.EdgeId, nowMs: int)
      requires Valid() && edge in s.registered && edge in s.made && s.made[edge] !in s.artifacts.records
      modifies this
      ensures Valid() && S.Grows(old(s), s) && edge in s.gone && s.artifacts == old(s).artifacts
    {
      Step(me, S.NoteGone(edge), nowMs);
    }
  }

  /** What `getForCaller` answers in this state. */
  function Fetched(w: World, ref: RefId, caller: Caller): Try<Option<Record<Meta>>> {
    if ref !in w.records then Answered(None)
    else if !Decodes(w.records[ref]) || !OwnedBy(w.records[ref].value, caller) then Threw
    else Answered(Some(w.records[ref]))
  }

  /** What `readVerified` answers: `before` and `after` are the states on both sides of the
      blob read. */
  function Read(before: World, after: World, ref: RefId, caller: Caller, nowMs: int, maxBytes: nat,
          blob: Option<string>)
    : Try<string>
  {
    if ref !in before.records || !Readable(before, ref, before.records[ref].revision, caller) then Threw
    else if nowMs >= before.records[ref].value.expiresAt || blob.None? then Threw
    else if !Readable(after, ref, before.records[ref].revision, caller) then Threw
    else if !Holds(after.records[ref].value, blob.value, maxBytes) then Threw
    else Answered(blob.value)
  }

  /** These bytes are the content the metadata names. */
  predicate Holds(m: Meta, bytes: string, maxBytes: nat) {
    |bytes| == m.byteSize && |bytes| <= maxBytes && Hash(bytes) == m.contentHash
  }

  datatype Acknowledged = Popped | NotOnTop | LostTheSwap | EdgeMissing

  /** The edge was pushed, for this output. */
  predicate RegisteredFor(s: S.Slot, e: S.EdgeId, ref: RefId) { e in s.registered && e in s.made && s.made[e] == ref }

  lemma HeadStays(me: Pid, s: S.Slot, s': S.Slot)
    requires S.SlotRely(me, s, s')
    ensures S.Grows(s, s')
    ensures s.head.Some? ==> s'.head.Some? && (s.head.value.revision == s'.head.value.revision ==> s'.head == s.head)
    ensures s.head.Some? && s.head.value.value.revoked ==> s'.head.value.value.revoked
  {
  }

  lemma EmptyIsGone(s: S.Slot)
    requires S.SlotInv(s) && S.Top(s).None?
    ensures s.registered <= s.gone
  {
    assert s.stack == [];
  }

  lemma ArtifactCanSwap(s: S.Slot, s': S.Slot, ref: RefId)
    requires S.SlotInv(s) && S.Grows(s, s') && ref in s.artifacts.records && Decodes(s.artifacts.records[ref])
    requires ref in s'.artifacts.records && s'.artifacts.records[ref].revision == s.artifacts.records[ref].revision
    ensures CanSwap(s'.artifacts, ref,
                    Seen(s.artifacts.records[ref].value, s.artifacts.records[ref].revision, s.artifacts.removed[ref]))
  {
    ReadCanSwap(s.artifacts, s'.artifacts, ref);
  }

  lemma RemovalsGrow(s: S.Slot, s': S.Slot, ref: RefId)
    requires S.Grows(s, s')
    ensures s.artifacts.removed[ref] <= s'.artifacts.removed[ref]
  {
  }
}
