/** The two stores behind durable outputs taken together (src/core/durable-document-output.ts:
    92-181, 344-358): reservations in one, artifacts and the outputs of an external source in
    the other. A worker publishes a reservation only once its own artifacts are stored. */
module OutputStores {
  import opened DurableStore
  import A = Artifacts
  import R = Reservations
  import S = OutputStack

  type RefId = A.RefId

  datatype Stores = Stores(stack: S.Slot, reservations: R.World)

  const EMPTY := Stores(S.EMPTY, R.EMPTY)

  /** The artifacts of a placement have been put into the store. */
  predicate Stored(p: R.Placement, s: S.Slot) { p.output in s.artifacts.puts && p.source in s.artifacts.puts }

  /** An output derived from an external source is registered for it. */
  predicate Registered(p: R.Placement, s: S.Slot) {
    p.output.details.Canonical? && p.output.details.externalSourceRef.Some? ==>
      && p.edge.Some? && p.edge.value in s.registered && p.edge.value in s.made
      && s.made[p.edge.value] == p.output.refId
  }

  /** What publications left on record was in the store. */
  ghost predicate InPlace(w: R.World, s: S.Slot) {
    forall t | t in w.placed :: Stored(w.placed[t], s) && Registered(w.placed[t], s)
  }

  ghost predicate StoresInv(x: Stores) {
    S.SlotInv(x.stack) && R.WorldInv(x.reservations) && InPlace(x.reservations, x.stack)
  }

  ghost predicate Grows(x: Stores, y: Stores) { S.Grows(x.stack, y.stack) && R.Grows(x.reservations, y.reservations) }

  datatype Event = OnStack(stackEvent: S.Event) | OnReservations(reservationEvent: R.Event)

  predicate MayPublish(x: Stores, a: R.Action) {
    a.Publish? ==> Stored(a.claim.placement, x.stack) && Registered(a.claim.placement, x.stack)
  }

  function Perform(x: Stores, e: Event): Stores {
    match e
    case OnStack(f) => x.(stack := S.Perform(x.stack, f))
    case OnReservations(f) =>
      if MayPublish(x, f.action) then x.(reservations := R.Perform(x.reservations, f)) else x
  }

  function Execute(x: Stores, schedule: seq<Event>): Stores
    decreases |schedule|
  {
    if schedule == [] then x else Execute(Perform(x, schedule[0]), schedule[1..])
  }

  lemma StepKeepsStoresInv(x: Stores, e: Event)
    requires StoresInv(x)
    ensures StoresInv(Perform(x, e)) && Grows(x, Perform(x, e))
  {
    hide S.SlotInv, R.WorldInv, S.Evolves, R.Grows, S.Enabled, S.Next;
    S.GrowsReflexive(x.stack);
    R.GrowsReflexive(x.reservations);
    match e
    case OnStack(f) =>
      if S.Enabled(f.pid, x.stack, f.action, f.nowMs) {
        S.StepKeepsSlotInv(f.pid, x.stack, f.action, f.nowMs);
        S.StepGrows(f.pid, x.stack, f.action, f.nowMs);
      }
    case OnReservations(f) =>
      if R.Enabled(x.reservations, f.action, f.nowMs) { R.StepKeepsInv(x.reservations, f.action, f.nowMs); }
  }

  /** Any run on both stores is within what a worker relies on before it touches either. */
  lemma {:induction false} RunKeepsStoresInv(x: Stores, schedule: seq<Event>)
    requires StoresInv(x)
    ensures StoresInv(Execute(x, schedule)) && Grows(x, Execute(x, schedule))
    decreases |schedule|
  {
    hide S.SlotInv, R.WorldInv, S.Grows, R.Grows, InPlace, Perform;
    S.GrowsReflexive(x.stack);
    R.GrowsReflexive(x.reservations);
    if schedule != [] {
      var y := Perform(x, schedule[0]);
      StepKeepsStoresInv(x, schedule[0]);
      RunKeepsStoresInv(y, schedule[1..]);
      S.GrowsTransitive(x.stack, y.stack, Execute(x, schedule).stack);
      R.GrowsTransitive(x.reservations, y.reservations, Execute(x, schedule).reservations);
    }
  }

  lemma EmptyInv()
    ensures StoresInv(EMPTY)
  {
  }

  /** The identity the record of a reserved output must have. */
  predicate IsReservedOutput(m: A.Meta, ref: RefId, i: R.Intent)
    requires ref.OperationOutput?
  {
    && m.owner == i.owner && m.contentHash == i.fingerprint.outputHash && m.expiresAt == i.expiresAt
    && m.details.Canonical? && m.details.sourceRefId == A.OperationSource(ref.caller, ref.operationKey)
    && m.details.externalSourceRef == i.fingerprint.externalSourceRef
  }

  predicate IsReservedSource(m: A.Meta, i: R.Intent) {
    && m.owner == i.owner && m.contentHash == i.fingerprint.sourceHash && m.expiresAt == i.expiresAt
    && m.details == A.Source(i.fingerprint.mimeType, i.fingerprint.filename)
  }

  /** In every run on both stores: behind a published reservation that was never swept stand
      exactly the output and the source reserved, by whichever save it was published, unless
      they have been removed; both expire within the limits of the save that reserved. If it
      is derived from an external source it is registered for that, so that by
      `OutputStack.RegisteredIsReachableOrAcknowledged` the source's revocation finds it. */
  lemma PublishedIsAsReserved(schedule: seq<Event>, ref: RefId)
    requires var x := Execute(EMPTY, schedule);
             && ref.OperationOutput? && ref in x.reservations.records && x.reservations.records[ref].value.published
             && x.reservations.swept[ref] == 0
    ensures var x := Execute(EMPTY, schedule); var i, w := x.reservations.records[ref].value, x.stack.artifacts;
            var sourceRef, t := A.OperationSource(ref.caller, ref.operationKey), R.TermsOf(ref, i);
            && (w.removed[ref] == 0 ==> ref in w.records && IsReservedOutput(w.records[ref].value, ref, i))
            && (w.removed[sourceRef] == 0 ==> sourceRef in w.records && IsReservedSource(w.records[sourceRef].value, i))
            && t in x.reservations.granted && R.Lawful(t, x.reservations.granted[t])
            && (i.fingerprint.externalSourceRef.Some? ==>
                  exists e | e in x.stack.registered :: e in x.stack.made && x.stack.made[e] == ref)
  {
    hide Execute;
    EmptyInv();
    RunKeepsStoresInv(EMPTY, schedule);
    ReservedStands(Execute(EMPTY, schedule), ref);
  }

  lemma ReservedStands(x: Stores, ref: RefId)
    requires StoresInv(x) && ref.OperationOutput? && ref in x.reservations.records
    requires x.reservations.records[ref].value.published && x.reservations.swept[ref] == 0
    ensures var i, w := x.reservations.records[ref].value, x.stack.artifacts;
            var sourceRef, t := A.OperationSource(ref.caller, ref.operationKey), R.TermsOf(ref, i);
            && (w.removed[ref] == 0 ==> ref in w.records && IsReservedOutput(w.records[ref].value, ref, i))
            && (w.removed[sourceRef] == 0 ==> sourceRef in w.records && IsReservedSource(w.records[sourceRef].value, i))
            && t in x.reservations.granted && R.Lawful(t, x.reservations.granted[t])
            && (i.fingerprint.externalSourceRef.Some? ==>
                  exists e | e in x.stack.registered :: e in x.stack.made && x.stack.made[e] == ref)
  {
    hide S.Chain, S.Distinct, R.Lawful;
    var t := R.TermsOf(ref, x.reservations.records[ref].value);
    var p := x.reservations.placed[t];
    assert Stored(p, x.stack) && Registered(p, x.stack) && R.PlacedFor(t, p);
    assert p.output.refId == ref && p.source.refId == A.OperationSource(ref.caller, ref.operationKey);
  }
}
