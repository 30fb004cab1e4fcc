/** Reservations of durable outputs (src/core/durable-document-output.ts:31-38, 296-345,
    392-420): one record per operation key and caller, raced for by savers that publish
    it, owners that revoke it, and the sweep. */
module Reservations {
  import opened Basics
  import opened DurableStore
  import A = Artifacts

  type RefId = A.RefId

  datatype Fingerprint = Fingerprint(
    sourceHash: A.Digest, outputHash: A.Digest, mimeType: string, filename: string,
    externalSourceRef: Option<string>, sourceExpiresAt: Option<int>)

  datatype Intent = Intent(
    owner: A.Caller, fingerprint: Fingerprint, createdAt: int, expiresAt: int, revoked: bool, published: bool)

  /** What a reservation is for, apart from its flags. */
  datatype Terms = Terms(ref: RefId, owner: A.Caller, fingerprint: Fingerprint, createdAt: int, expiresAt: int)

  function TermsOf(ref: RefId, i: Intent): Terms { Terms(ref, i.owner, i.fingerprint, i.createdAt, i.expiresAt) }

  /** What the save that made a reservation had to keep to: its time to live, and until when
      the authority vouched for the external source. */
  datatype Limits = Limits(ttlMs: int, authorityExpiresAt: Option<int>)

  predicate Lawful(t: Terms, l: Limits) {
    && t.expiresAt <= t.createdAt + l.ttlMs
    && (t.fingerprint.sourceExpiresAt.Some? ==> t.expiresAt <= t.fingerprint.sourceExpiresAt.value)
    && (t.fingerprint.externalSourceRef.Some? ==> l.authorityExpiresAt.Some?)
    && (l.authorityExpiresAt.Some? ==> t.expiresAt <= l.authorityExpiresAt.value)
  }

  /** What a save has in place when it publishes: its artifacts and, if there is an external
      source, the edge under which the output is registered for it. */
  datatype Placement = Placement(output: A.Identity, source: A.Identity, edge: Option<nat>)

  /** They are the ones reserved: the canonical output, derived from the external source
      named, and the source it was made of. */
  predicate PlacedFor(t: Terms, p: Placement) {
    && p.output.refId == t.ref && p.output.owner == t.owner && p.output.contentHash == t.fingerprint.outputHash
    && p.output.expiresAt == t.expiresAt && p.output.details.Canonical?
    && p.output.details.sourceRefId == p.source.refId
    && p.output.details.externalSourceRef == t.fingerprint.externalSourceRef
    && (t.ref.OperationOutput? ==> p.source.refId == A.OperationSource(t.ref.caller, t.ref.operationKey))
    && p.source.owner == t.owner && p.source.contentHash == t.fingerprint.sourceHash
    && p.source.expiresAt == t.expiresAt
    && p.source.details == A.Source(t.fingerprint.mimeType, t.fingerprint.filename)
  }

  /** What a publisher holds: the terms it reserved under, how often the reservation had been
      disturbed by then, and the artifacts it has stored for them. */
  datatype Claim = Claim(terms: Terms, disturbances: nat, placement: Placement)

  /** The records, how often each was swept, how often one was rewritten by a worker whose
      read was older than a sweep, and the history: every reservation ever made with its
      limits, and what was in place when it was published. */
  datatype World = World(
    records: map<RefId, Record<Intent>>, swept: multiset<RefId>, stale: multiset<RefId>,
    granted: map<Terms, Limits>, placed: map<Terms, Placement>)

  const EMPTY := World(map[], multiset{}, multiset{}, map[], map[])

  datatype Seen = Seen(intent: Intent, revision: nat, lifetime: nat)

  datatype Action =
    | Reserve(ref: RefId, intent: Intent, limits: Limits)
    | Revoke(ref: RefId, seen: Seen)
    | Publish(ref: RefId, seen: Seen, claim: Claim)
    | Sweep(ref: RefId, expected: nat)

  predicate CanSwap(w: World, ref: RefId, seen: Seen) {
    && ref in w.records && w.records[ref].revision == seen.revision && !seen.intent.revoked
    && TermsOf(ref, seen.intent) in w.granted
    && seen.lifetime <= w.swept[ref] && (seen.lifetime == w.swept[ref] ==> w.records[ref].value == seen.intent)
  }

  /** The artifacts are those of the terms claimed, and these are the record's own for as long
      as it was not disturbed since. A publisher does not look at what it publishes. */
  predicate Claims(w: World, ref: RefId, i: Intent, c: Claim) {
    && c.terms.ref == ref && c.terms in w.granted && PlacedFor(c.terms, c.placement)
    && c.disturbances <= Disturbances(w, ref)
    && (c.disturbances == Disturbances(w, ref) ==> c.terms == TermsOf(ref, i))
  }

  predicate Enabled(w: World, a: Action, nowMs: int) {
    match a
    case Reserve(ref, i, limits) =>
      ref !in w.records && !i.revoked && !i.published && Lawful(TermsOf(ref, i), limits)
    case Revoke(ref, seen) => CanSwap(w, ref, seen)
    case Publish(ref, seen, claim) =>
      CanSwap(w, ref, seen) && !seen.intent.published && Claims(w, ref, seen.intent, claim)
    case Sweep(ref, expected) => ref in w.records && w.records[ref].revision == expected
  }

  function Swapped(w: World, ref: RefId, seen: Seen, i: Intent, nowMs: int): World
    requires ref in w.records
  {
    w.(records := w.records[ref := Bump(w.records[ref], i, nowMs, Some(Max(i.expiresAt, nowMs + 1)))],
       stale := if seen.lifetime == w.swept[ref] then w.stale else w.stale + multiset{ref})
  }

  function Next(w: World, a: Action, nowMs: int): World
    requires Enabled(w, a, nowMs)
  {
    match a
    case Reserve(ref, i, limits) =>
      w.(records := w.records[ref := Fresh(i, nowMs, Some(i.expiresAt))],
         granted := w.granted[TermsOf(ref, i) := limits])
    case Revoke(ref, seen) => Swapped(w, ref, seen, seen.intent.(revoked := true), nowMs)
    case Publish(ref, seen, claim) =>
      Swapped(w, ref, seen, seen.intent.(published := true), nowMs)
        .(placed := w.placed[claim.terms := claim.placement])
    case Sweep(ref, _) => w.(records := w.records - {ref}, swept := w.swept + multiset{ref})
  }

  ghost predicate WorldInv(w: World) {
    && (forall ref | ref in w.records :: w.records[ref].revision >= 1)
    && (forall ref | ref in w.stale :: w.swept[ref] > 0)
    && (forall ref | ref in w.records :: TermsOf(ref, w.records[ref].value) in w.granted)
    && (forall t | t in w.granted :: Lawful(t, w.granted[t]))
    && (forall t | t in w.placed :: t in w.granted && PlacedFor(t, w.placed[t]))
    && (forall ref | ref in w.records && w.swept[ref] == 0 && w.records[ref].value.published ::
          TermsOf(ref, w.records[ref].value) in w.placed)
  }

  function Disturbances(w: World, ref: RefId): nat { w.swept[ref] + w.stale[ref] }

  /** What the reservation is for never changes; both flags only rise; and a revoked
      reservation does not change at all, so one revoked unpublished stays unpublished. */
  predicate Advances(i: Intent, j: Intent) {
    && i.owner == j.owner && i.fingerprint == j.fingerprint && i.createdAt == j.createdAt && i.expiresAt == j.expiresAt
    && (i.published ==> j.published) && (i.revoked ==> j == i)
  }

  predicate SameAtRevision(r: Record<Intent>, r': Record<Intent>) {
    r.revision <= r'.revision && (r.revision == r'.revision ==> r' == r)
  }

  ghost predicate Grows(w: World, w': World) {
    && w.swept <= w'.swept && w.stale <= w'.stale
    && w.granted.Keys <= w'.granted.Keys && w.placed.Keys <= w'.placed.Keys
    && (forall ref | ref in w.records && w'.swept[ref] == w.swept[ref] ::
          ref in w'.records && SameAtRevision(w.records[ref], w'.records[ref]))
    && (forall ref | ref in w.records && Disturbances(w', ref) == Disturbances(w, ref) ::
          ref in w'.records && Advances(w.records[ref].value, w'.records[ref].value))
  }

  lemma StepAdvances(w: World, a: Action, nowMs: int, ref: RefId)
    requires Enabled(w, a, nowMs) && ref in w.records && Disturbances(Next(w, a, nowMs), ref) == Disturbances(w, ref)
    ensures ref in Next(w, a, nowMs).records && Advances(w.records[ref].value, Next(w, a, nowMs).records[ref].value)
  {
    if a.Sweep? { assert Next(w, a, nowMs).swept[a.ref] == w.swept[a.ref] + 1; }
  }

  lemma StepKeepsInv(w: World, a: Action, nowMs: int)
    requires WorldInv(w) && Enabled(w, a, nowMs)
    ensures WorldInv(Next(w, a, nowMs)) && Grows(w, Next(w, a, nowMs))
  {
    StepGrows(w, a, nowMs);
    StepKeepsGrants(w, a, nowMs);
    PublishedStaysPlaced(w, a, nowMs);
    StepKeepsCounts(w, a, nowMs);
    hide Grows, Next, Enabled, Lawful, PlacedFor;
  }

  lemma StepKeepsCounts(w: World, a: Action, nowMs: int)
    requires WorldInv(w) && Enabled(w, a, nowMs)
    ensures var w' := Next(w, a, nowMs);
            && (forall ref | ref in w'.records :: w'.records[ref].revision >= 1)
            && (forall ref | ref in w'.stale :: w'.swept[ref] > 0)
  {
    hide Lawful, PlacedFor, Claims;
    if a.Sweep? { assert Next(w, a, nowMs).swept[a.ref] == w.swept[a.ref] + 1; }
  }

  lemma StepGrows(w: World, a: Action, nowMs: int)
    requires WorldInv(w) && Enabled(w, a, nowMs)
    ensures Grows(w, Next(w, a, nowMs))
  {
    hide Advances, Lawful, PlacedFor, Claims;
    var w' := Next(w, a, nowMs);
    StepCounts(w, a, nowMs);
    forall ref | ref in w.records && Disturbances(w', ref) == Disturbances(w, ref)
      ensures ref in w'.records && Advances(w.records[ref].value, w'.records[ref].value)
    {
      StepAdvances(w, a, nowMs, ref);
    }
    forall ref | ref in w.records && w'.swept[ref] == w.swept[ref]
      ensures ref in w'.records && SameAtRevision(w.records[ref], w'.records[ref])
    {
      StepIsFenced(w, a, nowMs, ref);
    }
    hide Next, Enabled;
  }

  lemma StepCounts(w: World, a: Action, nowMs: int)
    requires Enabled(w, a, nowMs)
    ensures var w' := Next(w, a, nowMs);
            && w.swept <= w'.swept && w.stale <= w'.stale
            && w.granted.Keys <= w'.granted.Keys && w.placed.Keys <= w'.placed.Keys
  {
    hide Lawful, PlacedFor, Claims, CanSwap;
  }

  lemma StepIsFenced(w: World, a: Action, nowMs: int, ref: RefId)
    requires Enabled(w, a, nowMs) && ref in w.records && Next(w, a, nowMs).swept[ref] == w.swept[ref]
    ensures ref in Next(w, a, nowMs).records && SameAtRevision(w.records[ref], Next(w, a, nowMs).records[ref])
  {
    hide Lawful, PlacedFor, Claims;
    if a.Sweep? { assert Next(w, a, nowMs).swept[a.ref] == w.swept[a.ref] + 1; }
  }

  lemma StepKeepsGrants(w: World, a: Action, nowMs: int)
    requires WorldInv(w) && Enabled(w, a, nowMs)
    ensures var w' := Next(w, a, nowMs);
            && (forall ref | ref in w'.records :: TermsOf(ref, w'.records[ref].value) in w'.granted)
            && (forall t | t in w'.granted :: Lawful(t, w'.granted[t]))
            && (forall t | t in w'.placed :: t in w'.granted && PlacedFor(t, w'.placed[t]))
  {
    hide Lawful, PlacedFor;
  }

  /** On a reservation never swept the publisher's terms are the record's. */
  lemma PublishedStaysPlaced(w: World, a: Action, nowMs: int)
    requires WorldInv(w) && Enabled(w, a, nowMs)
    ensures var w' := Next(w, a, nowMs);
            forall ref | ref in w'.records && w'.swept[ref] == 0 && w'.records[ref].value.published ::
              TermsOf(ref, w'.records[ref].value) in w'.placed
  {
    hide Lawful, PlacedFor;
    var w' := Next(w, a, nowMs);
    forall ref | ref in w'.records && w'.swept[ref] == 0 && w'.records[ref].value.published
      ensures TermsOf(ref, w'.records[ref].value) in w'.placed
    {
      if a.Sweep? { assert w'.swept[a.ref] == w.swept[a.ref] + 1; }
      assert w.stale[ref] == 0;
    }
  }

  lemma GrowsReflexive(w: World)
    ensures Grows(w, w)
  {
  }

  lemma GrowsTransitive(a: World, b: World, c: World)
    requires Grows(a, b) && Grows(b, c)
    ensures Grows(a, c)
  {
    forall ref | ref in a.records && c.swept[ref] == a.swept[ref]
      ensures ref in c.records && SameAtRevision(a.records[ref], c.records[ref])
    {
      assert a.swept[ref] <= b.swept[ref] <= c.swept[ref];
    }
    forall ref | ref in a.records && Disturbances(c, ref) == Disturbances(a, ref)
      ensures ref in c.records && Advances(a.records[ref].value, c.records[ref].value)
    {
      assert a.swept[ref] <= b.swept[ref] <= c.swept[ref] && a.stale[ref] <= b.stale[ref] <= c.stale[ref];
    }
  }

  // ------------------------------------------------------------------ whole runs

  datatype Event = Event(action: Action, nowMs: int)

  function Perform(w: World, e: Event): World {
    if Enabled(w, e.action, e.nowMs) then Next(w, e.action, e.nowMs) else w
  }

  function Execute(w: World, schedule: seq<Event>): World
    decreases |schedule|
  {
    if schedule == [] then w else Execute(Perform(w, schedule[0]), schedule[1..])
  }

  lemma {:induction false} RunKeepsInv(w: World, schedule: seq<Event>)
    requires WorldInv(w)
    ensures WorldInv(Execute(w, schedule)) && Grows(w, Execute(w, schedule))
    decreases |schedule|
  {
    hide WorldInv, Grows, Enabled, Next;
    GrowsReflexive(w);
    if schedule != [] {
      var e := schedule[0];
      if Enabled(w, e.action, e.nowMs) { StepKeepsInv(w, e.action, e.nowMs); }
      RunKeepsInv(Perform(w, e), schedule[1..]);
      GrowsTransitive(w, Perform(w, e), Execute(w, schedule));
    }
  }

  /** Over every run on a retained reservation: all its users see one fingerprint and one
      expiry; once revoked it stays revoked, and if it was not published by then it never is. */
  lemma RevokedIsNeverPublished(before: seq<Event>, after: seq<Event>, ref: RefId)
    requires ref in Execute(EMPTY, before).records
    requires Disturbances(Execute(Execute(EMPTY, before), after), ref) == Disturbances(Execute(EMPTY, before), ref)
    ensures var w, w' := Execute(EMPTY, before), Execute(Execute(EMPTY, before), after);
            && ref in w'.records && w'.records[ref].value.fingerprint == w.records[ref].value.fingerprint
            && w'.records[ref].value.expiresAt == w.records[ref].value.expiresAt
            && (w.records[ref].value.published ==> w'.records[ref].value.published)
            && (w.records[ref].value.revoked ==>
                  w'.records[ref].value.revoked && w'.records[ref].value.published == w.records[ref].value.published)
  {
    RunKeepsInv(EMPTY, before);
    RunKeepsInv(Execute(EMPTY, before), after);
  }

  /** A revoked or published reservation is found by no scan before its own expiry nor at the
      moment it was written. */
  lemma WritesAreKept(w: World, a: Action, nowMs: int, scanMs: int)
    requires Enabled(w, a, nowMs) && (a.Revoke? || a.Publish?)
    requires scanMs <= nowMs || scanMs < a.seen.intent.expiresAt
    ensures var r := Next(w, a, nowMs).records[a.ref];
            (r.value.revoked || r.value.published) && r.expiresAt.Some? && scanMs < r.expiresAt.value
  {
    hide Claims, Lawful, PlacedFor;
  }

  /** On a reservation never swept, that is every run. */
  lemma NeverSweptIsUndisturbed(schedule: seq<Event>, ref: RefId)
    requires Execute(EMPTY, schedule).swept[ref] == 0
    ensures Disturbances(Execute(EMPTY, schedule), ref) == 0
  {
    RunKeepsInv(EMPTY, schedule);
  }

  /** In every run a reservation's expiry keeps to the limits of a save that made it for the
      same fingerprint, and one published and never swept had exactly the artifacts reserved
      in place. */
  lemma ReservationsKeepToTheirTerms(schedule: seq<Event>, ref: RefId)
    requires ref in Execute(EMPTY, schedule).records
    ensures var w := Execute(EMPTY, schedule); var i := w.records[ref].value; var t := TermsOf(ref, i);
            && t in w.granted && Lawful(t, w.granted[t])
            && (w.swept[ref] == 0 && i.published ==> t in w.placed && PlacedFor(t, w.placed[t]))
  {
    RunKeepsInv(EMPTY, schedule);
  }

  /** A publication leaves a reservation published without its own artifacts if and only if
      its publisher reserved under other terms and nobody else had published these; then the
      record was swept or rewritten since. */
  lemma PublishesUnplacedExactly(before: seq<Event>, a: Action, nowMs: int)
    requires a.Publish? && Enabled(Execute(EMPTY, before), a, nowMs)
    ensures var w, t := Execute(EMPTY, before), TermsOf(a.ref, a.seen.intent);
            && (t !in Next(w, a, nowMs).placed <==> a.claim.terms != t && t !in w.placed)
            && (a.claim.terms != t ==> a.claim.disturbances < Disturbances(w, a.ref))
  {
  }

  /** A save that is slow to publish: its reservation expires and is swept, another save
      reserves the operation for other contents, and the first publishes that. */
  function SlowPublication(ref: RefId, i: Intent, j: Intent, l: Limits): seq<Event> {
    [Event(Reserve(ref, i, l), i.createdAt), Event(Sweep(ref, 1), i.expiresAt), Event(Reserve(ref, j, l), j.createdAt)]
  }

  lemma PublishedUnplaced(ref: RefId, i: Intent, j: Intent, l: Limits, p: Placement)
    requires !i.revoked && !i.published && !j.revoked && !j.published && TermsOf(ref, i) != TermsOf(ref, j)
    requires Lawful(TermsOf(ref, i), l) && Lawful(TermsOf(ref, j), l) && PlacedFor(TermsOf(ref, i), p)
    requires i.createdAt < i.expiresAt <= j.createdAt
    ensures var w := Execute(EMPTY, SlowPublication(ref, i, j, l));
            var a := Publish(ref, Seen(j, 1, 1), Claim(TermsOf(ref, i), 0, p));
            && Enabled(w, a, j.createdAt + 1)
            && Next(w, a, j.createdAt + 1).records[ref].value == j.(published := true)
            && TermsOf(ref, j) !in Next(w, a, j.createdAt + 1).placed
  {
    hide Lawful, PlacedFor;
    var e := SlowPublication(ref, i, j, l);
    var w1 := Perform(EMPTY, e[0]);
    assert w1.records[ref] == Fresh(i, i.createdAt, Some(i.expiresAt));
    var w2 := Perform(w1, e[1]);
    assert ref !in w2.records && w2.swept[ref] == 1;
    var w3 := Perform(w2, e[2]);
    assert e[1..] == [e[1], e[2]] && e[1..][1..] == [e[2]] && e[1..][1..][1..] == [];
    assert Execute(EMPTY, e) == Execute(w1, e[1..]) == Execute(w2, e[1..][1..]) == Execute(w3, []);
  }

  /** A worker that was about to publish when the reservation was revoked loses the swap. */
  lemma PublishLosesToRevoke(before: seq<Event>, after: seq<Event>, ref: RefId, claim: Claim, nowMs: int)
    requires ref in Execute(EMPTY, before).records
    requires var w, w' := Execute(EMPTY, before), Execute(Execute(EMPTY, before), after);
             Disturbances(w', ref) == Disturbances(w, ref) && ref in w'.records && w'.records[ref].value.revoked
                     && !w.records[ref].value.revoked
    ensures var w, w' := Execute(EMPTY, before), Execute(Execute(EMPTY, before), after);
            !Enabled(w', Publish(ref, Seen(w.records[ref].value, w.records[ref].revision, w.swept[ref]), claim), nowMs)
  {
    RunKeepsInv(EMPTY, before);
    RunKeepsInv(Execute(EMPTY, before), after);
  }
}
