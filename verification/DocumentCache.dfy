/** The durable document cache (src/core/durable-document-cache.ts) as a protocol of
    atomic store calls: core records by key string, bindings of a core to one source, and
    one index per source that lists its bindings and carries the revocation tombstone.
    Record keys are constructors, so distinct preimages give distinct keys. No step
    belongs to a particular worker: any worker may take any enabled step at any time. */
module DocumentCache {
  import opened Basics
  import opened DurableStore

  // ------------------------------------------------------------------ identities and settings

  datatype CacheKey = CacheKey(
    ownershipScope: string, contentHash: string, engineId: string, engineVersion: string, modelId: string,
    modelVersion: string, normalizedOptions: string, schemaVersion: string, policyVersion: string)

  function KeyString(k: CacheKey): string {
    k.ownershipScope + ":" + k.contentHash + ":" + k.engineId + ":" + k.engineVersion + ":" + k.modelId + ":"
    + k.modelVersion + ":" + k.normalizedOptions + ":" + k.schemaVersion + ":" + k.policyVersion
  }

  predicate ValidCacheKey(k: CacheKey) {
    && k.ownershipScope != "" && k.contentHash != "" && k.engineId != "" && k.engineVersion != "" && k.modelId != ""
    && k.modelVersion != "" && k.schemaVersion != "" && k.policyVersion != "" && |KeyString(k)| <= 2048
  }

  datatype Mode = Use | Refresh | Bypass

  datatype Settings = Settings(
    defaultTtlSeconds: int, operatorMaxTtlSeconds: Option<int>, enabled: bool, sourceExpirySeconds: Option<int>)

  datatype Identity = Identity(
    mode: Mode, key: CacheKey, sourceIdentity: string, sourceVersion: string, ownershipScope: string, nowMs: int,
    sourceExpiresAt: Option<int>, requestedTtlSeconds: Option<int>, toolName: Option<string>,
    networkPolicyChecked: bool)

  predicate ValidIdentity(i: Identity) {
    && 0 < |i.sourceIdentity| <= 1024 && 0 < i.nowMs <= MAX_SAFE_INTEGER
    && (i.sourceExpiresAt.Some? ==> 0 < i.sourceExpiresAt.value <= MAX_SAFE_INTEGER)
    && i.ownershipScope == i.key.ownershipScope && i.networkPolicyChecked && ValidCacheKey(i.key)
  }

  datatype Resolved = Resolved(mode: Mode, degraded: bool)

  function ResolveMode(requested: Mode, s: Settings): Resolved {
    if s.enabled then Resolved(requested, false) else Resolved(Bypass, requested != Bypass)
  }

  predicate Excluded(i: Identity) {
    i.toolName.Some?
      && (i.toolName.value == "web_fetch" || i.toolName.value == "web_extract" || i.toolName.value == "parse")
  }

  function EffectiveTtl(requested: Option<int>, s: Settings): int {
    var t0 := if requested.Some? then requested.value else s.defaultTtlSeconds;
    var t1 := if s.operatorMaxTtlSeconds.Some? then Min(t0, s.operatorMaxTtlSeconds.value) else t0;
    Max(if s.sourceExpirySeconds.Some? then Min(t1, s.sourceExpirySeconds.value) else t1, 0)
  }

  /** A positive divisor's Euclidean quotient is the floor. */
  function SettingsFor(s: Settings, i: Identity): Settings {
    if i.sourceExpiresAt.None? then s else
    var remaining := Max(0, (i.sourceExpiresAt.value - i.nowMs) / 1000);
    s.(sourceExpirySeconds := Some(if s.sourceExpirySeconds.None? then remaining
                                   else Min(s.sourceExpirySeconds.value, remaining)))
  }

  function Ttl(s: Settings, i: Identity): int { EffectiveTtl(i.requestedTtlSeconds, SettingsFor(s, i)) }

  /** The absolute limits one request puts on what it may store. */
  datatype Bound = Bound(operatorCap: Option<int>, sourceExpiresAt: Option<int>)

  function BoundOf(s: Settings, i: Identity): Bound {
    Bound(if s.operatorMaxTtlSeconds.Some? then Some(i.nowMs + s.operatorMaxTtlSeconds.value * 1000) else None,
          i.sourceExpiresAt)
  }

  predicate Within(expiresAt: int, b: Bound) {
    && (b.operatorCap.Some? ==> expiresAt <= b.operatorCap.value)
    && (b.sourceExpiresAt.Some? ==> expiresAt <= b.sourceExpiresAt.value)
  }

  /** A positive time to live ends by the operator's cap and by the source's own expiry. */
  lemma TtlIsWithinBounds(s: Settings, i: Identity)
    requires Ttl(s, i) > 0
    ensures Within(i.nowMs + Ttl(s, i) * 1000, BoundOf(s, i))
  {
    var ttl := Ttl(s, i);
    if i.sourceExpiresAt.Some? {
      var left := i.sourceExpiresAt.value - i.nowMs;
      assert ttl <= Max(0, left / 1000) && left / 1000 >= 1;
      assert (left / 1000) * 1000 <= left;
    }
  }

  /** The time to live is the longest that keeps to what was asked for, or by default, to the
      operator's cap and the source's lifetime as configured, and that ends by the source's
      own expiry. */
  lemma TtlIsTheLongestAllowed(s: Settings, i: Identity, t: int)
    requires t >= 1
    ensures t <= Ttl(s, i) <==>
              && t <= (if i.requestedTtlSeconds.Some? then i.requestedTtlSeconds.value else s.defaultTtlSeconds)
              && (s.operatorMaxTtlSeconds.Some? ==> t <= s.operatorMaxTtlSeconds.value)
              && (s.sourceExpirySeconds.Some? ==> t <= s.sourceExpirySeconds.value)
              && (i.sourceExpiresAt.Some? ==> i.nowMs + t * 1000 <= i.sourceExpiresAt.value)
  {
    if i.sourceExpiresAt.Some? {
      var left := i.sourceExpiresAt.value - i.nowMs;
      assert left == (left / 1000) * 1000 + left % 1000;
      assert t <= left / 1000 <==> t * 1000 <= left;
    }
  }

  // ------------------------------------------------------------------ records

  datatype Provenance = Provenance(isOriginal: bool, originalCost: int, engine: string, model: string)

  /** Blobs are addressed by owner, key string and content. */
  datatype BlobKey = Blob(owner: string, ks: string, content: string)

  datatype Payload = Inline(data: string) | InBlob(blob: BlobKey, byteSize: nat)

  datatype Core = Core(
    key: CacheKey, keyString: string, payload: Payload, provenance: Provenance, createdAt: int, expiresAt: int)

  function DataOf(c: Core): string { if c.payload.Inline? then c.payload.data else c.payload.blob.content }

  datatype BindingKey = BindingKey(ks: string, scope: string, source: string)
  datatype IndexKey = IndexKey(scope: string, source: string)

  datatype Binding = Binding(
    coreKey: string, sourceIdentity: string, sourceVersion: string, ownershipScope: string, createdAt: int,
    expiresAt: int, revoked: bool)

  datatype Index = Index(
    ownershipScope: string, sourceIdentity: string, bindingKeys: seq<BindingKey>, createdAt: int, updatedAt: int,
    expiresAt: int, revoked: bool)

  const MAX_SOURCE_BINDINGS := 128

  function BindingOf(i: Identity): BindingKey { BindingKey(KeyString(i.key), i.ownershipScope, i.sourceIdentity) }
  function IndexOf(i: Identity): IndexKey { IndexKey(i.ownershipScope, i.sourceIdentity) }

  /** What a commit or a rebind was for: the settings and request, and the core it bound. */
  datatype Origin = Origin(settings: Settings, identity: Identity, core: Core)

  /** The binding of a core a request makes: it ends with the core or with the request's own
      time to live, whichever comes first. */
  function NewBinding(s: Settings, i: Identity, core: Core): Binding {
    Binding(core.keyString, i.sourceIdentity, i.sourceVersion, i.ownershipScope, i.nowMs,
            Min(core.expiresAt, i.nowMs + Ttl(s, i) * 1000), false)
  }

  /** The store, the blobs, and what the theorems speak of: every core a commit ever
      wrote, the settings, request and core behind each binding, how often each binding and
      index record has been swept, and how often an index was swapped on a revision read
      before it was last swept (`stale`). */
  datatype World = World(
    cores: map<string, Record<Core>>, bindings: map<BindingKey, Record<Binding>>, indexes: map<IndexKey, Record<Index>>,
    blobs: set<BlobKey>, committed: set<Core>, origins: map<BindingKey, Origin>,
    sweptBindings: multiset<BindingKey>, sweptIndexes: multiset<IndexKey>, stale: multiset<IndexKey>)

  const EMPTY := World(map[], map[], map[], {}, {}, map[], multiset{}, multiset{}, multiset{})

  function CoreAt(w: World, ks: string): Option<Record<Core>> { if ks in w.cores then Some(w.cores[ks]) else None }
  function BindingAt(w: World, k: BindingKey): Option<Record<Binding>> {
    if k in w.bindings then Some(w.bindings[k]) else None
  }
  function IndexAt(w: World, k: IndexKey): Option<Record<Index>> { if k in w.indexes then Some(w.indexes[k]) else None }

  // ------------------------------------------------------------------ steps

  /** An index as a worker read it: its value, its revision, and how often the record had
      been swept by then. A swap is decided by the revision alone. */
  datatype Seen = Seen(index: Index, revision: nat, lifetime: nat)

  datatype Action =
    | WriteCore(core: Core)                              // create, or overwrite whatever is there
    | WriteBinding(settings: Settings, identity: Identity, core: Core)  // of this core, for this request
    | RevokeBinding(at: BindingKey, was: Binding, expected: nat)
    | CreateIndex(index: IndexKey, entry: BindingKey, until: int)
    | ExtendIndex(index: IndexKey, seen: Seen, entry: BindingKey, until: int)
    | RevokeIndex(index: IndexKey, seen: Seen)
    | PutBlob(blob: BlobKey)
    | DropBlob(blob: BlobKey)
    | SweepCore(ks: string, expected: nat)               // deleteIfRevision on the revision a scan saw
    | SweepBinding(at: BindingKey, expected: nat)
    | SweepIndex(index: IndexKey, expected: nat)

  predicate CanCommit(c: Core) {
    && c.keyString == KeyString(c.key) && c.createdAt < c.expiresAt
    && (c.payload.InBlob? ==> c.payload.blob.owner == c.key.ownershipScope && c.payload.blob.ks == c.keyString
                              && c.payload.byteSize == |c.payload.blob.content|)
  }

  predicate Expired<V>(r: Record<V>, nowMs: int) { r.expiresAt.Some? && r.expiresAt.value <= nowMs }

  predicate Addressed(k: BindingKey, b: Binding) {
    b.coreKey == k.ks && b.sourceIdentity == k.source && b.ownershipScope == k.scope
  }

  /** An index lists bindings of its own source only, each once, and not too many. */
  predicate WellFormed(ik: IndexKey, i: Index) {
    && i.ownershipScope == ik.scope && i.sourceIdentity == ik.source && 1 <= |i.bindingKeys| <= MAX_SOURCE_BINDINGS
    && (forall n | 0 <= n < |i.bindingKeys| ::
          i.bindingKeys[n].scope == ik.scope && i.bindingKeys[n].source == ik.source)
    && (forall m, n | 0 <= m < n < |i.bindingKeys| :: i.bindingKeys[m] != i.bindingKeys[n])
  }

  /** The revision still matches; if the record was not swept since, so does the rest. */
  predicate CanSwap(w: World, ik: IndexKey, seen: Seen) {
    && ik in w.indexes && w.indexes[ik].revision == seen.revision && WellFormed(ik, seen.index) && !seen.index.revoked
    && seen.lifetime <= w.sweptIndexes[ik]
    && (seen.lifetime == w.sweptIndexes[ik] ==> w.indexes[ik].value == seen.index)
  }

  predicate Enabled(w: World, a: Action, nowMs: int) {
    match a
    case WriteCore(c) => CanCommit(c)
    case WriteBinding(s, i, core) => core in w.committed && core.keyString == KeyString(i.key) && Ttl(s, i) > 0
    case RevokeBinding(k, was, expected) =>
      k in w.bindings && w.bindings[k].revision == expected && Addressed(k, was)
    case CreateIndex(ik, k, _) => ik !in w.indexes && k.scope == ik.scope && k.source == ik.source
    case ExtendIndex(ik, seen, k, _) =>
      && CanSwap(w, ik, seen) && k.scope == ik.scope && k.source == ik.source
      && (k in seen.index.bindingKeys || |seen.index.bindingKeys| < MAX_SOURCE_BINDINGS)
    case RevokeIndex(ik, seen) => CanSwap(w, ik, seen)
    case PutBlob(_) => true
    case DropBlob(_) => true
    case SweepCore(ks, expected) => ks in w.cores && w.cores[ks].revision == expected
    case SweepBinding(k, expected) => k in w.bindings && w.bindings[k].revision == expected
    case SweepIndex(ik, expected) => ik in w.indexes && w.indexes[ik].revision == expected
  }

  function Put<V>(before: Option<Record<V>>, value: V, nowMs: int, expiresAt: int): Record<V> {
    if before.None? then Fresh(value, nowMs, Some(expiresAt)) else Bump(before.value, value, nowMs, Some(expiresAt))
  }

  function With(keys: seq<BindingKey>, k: BindingKey): seq<BindingKey> { if k in keys then keys else keys + [k] }

  function Revoked(b: Binding, nowMs: int): Binding { b.(revoked := true, expiresAt := Max(b.expiresAt, nowMs + 1)) }

  function Tombstone(i: Index, nowMs: int): Index {
    i.(revoked := true, updatedAt := nowMs, expiresAt := Max(i.expiresAt, nowMs + 1))
  }

  function Extended(i: Index, k: BindingKey, until: int, nowMs: int): Index {
    i.(bindingKeys := With(i.bindingKeys, k), updatedAt := nowMs, expiresAt := Max(i.expiresAt, until))
  }

  function FirstIndex(ik: IndexKey, k: BindingKey, until: int, nowMs: int): Index {
    Index(ik.scope, ik.source, [k], nowMs, nowMs, until, false)
  }

  function Swapped(w: World, ik: IndexKey, seen: Seen, i: Index, nowMs: int): World
    requires ik in w.indexes
  {
    w.(indexes := w.indexes[ik := Bump(w.indexes[ik], i, nowMs, Some(i.expiresAt))],
       stale := if seen.lifetime == w.sweptIndexes[ik] then w.stale else w.stale + multiset{ik})
  }

  function Next(w: World, a: Action, nowMs: int): World
    requires Enabled(w, a, nowMs)
  {
    match a
    case WriteCore(c) =>
      w.(cores := w.cores[c.keyString := Put(CoreAt(w, c.keyString), c, nowMs, c.expiresAt)],
         committed := w.committed + {c})
    case WriteBinding(s, i, core) =>
      var k, b := BindingOf(i), NewBinding(s, i, core);
      w.(bindings := w.bindings[k := Put(BindingAt(w, k), b, nowMs, b.expiresAt)],
         origins := w.origins[k := Origin(s, i, core)])
    case RevokeBinding(k, was, _) =>
      var b := Revoked(was, nowMs);
      w.(bindings := w.bindings[k := Bump(w.bindings[k], b, nowMs, Some(b.expiresAt))])
    case CreateIndex(ik, k, until) =>
      w.(indexes := w.indexes[ik := Fresh(FirstIndex(ik, k, until, nowMs), nowMs, Some(until))])
    case ExtendIndex(ik, seen, k, until) => Swapped(w, ik, seen, Extended(seen.index, k, until, nowMs), nowMs)
    case RevokeIndex(ik, seen) => Swapped(w, ik, seen, Tombstone(seen.index, nowMs), nowMs)
    case PutBlob(b) => w.(blobs := w.blobs + {b})
    case DropBlob(b) => w.(blobs := w.blobs - {b})
    case SweepCore(ks, _) => w.(cores := w.cores - {ks})
    case SweepBinding(k, _) => w.(bindings := w.bindings - {k}, sweptBindings := w.sweptBindings + multiset{k})
    case SweepIndex(ik, _) => w.(indexes := w.indexes - {ik}, sweptIndexes := w.sweptIndexes + multiset{ik})
  }

  // ------------------------------------------------------------------ invariant

  ghost predicate CoresInv(w: World) {
    && (forall ks | ks in w.cores :: w.cores[ks].value.keyString == ks && w.cores[ks].value in w.committed
            && w.cores[ks].revision >= 1)
    && (forall c | c in w.committed :: CanCommit(c))
  }

  /** The binding is the one this request makes of a core that was committed. */
  predicate MadeFrom(w: World, k: BindingKey, b: Binding, o: Origin) {
    && k == BindingOf(o.identity) && b == NewBinding(o.settings, o.identity, o.core)
    && o.core in w.committed && o.core.keyString == k.ks && Ttl(o.settings, o.identity) > 0
  }

  ghost predicate BindingInv(w: World, k: BindingKey)
    requires k in w.bindings
  {
    var b := w.bindings[k].value;
    && w.bindings[k].revision >= 1
    && Addressed(k, b)
    && (!b.revoked ==> k in w.origins && MadeFrom(w, k, b, w.origins[k]))
  }

  predicate IndexInv(w: World, ik: IndexKey)
    requires ik in w.indexes
  {
    w.indexes[ik].revision >= 1 && WellFormed(ik, w.indexes[ik].value)
  }

  ghost predicate WorldInv(w: World) {
    && CoresInv(w)
    && (forall k | k in w.bindings :: BindingInv(w, k))
    && (forall ik | ik in w.indexes :: IndexInv(w, ik))
    && (forall ik | ik in w.stale :: w.sweptIndexes[ik] > 0)
  }

  predicate IndexGrows(r: Record<Index>, r': Record<Index>) {
    && r.revision <= r'.revision && (r.revision == r'.revision ==> r' == r)
    && r.value.bindingKeys <= r'.value.bindingKeys
    && r.value.expiresAt <= r'.value.expiresAt && r.value.createdAt == r'.value.createdAt
    && (r.value.revoked ==> r' == r)
  }

  /** A revision stands for one value for as long as the record lives. */
  ghost predicate SameAtRevision<V>(r: Record<V>, r': Record<V>) {
    r.revision <= r'.revision && (r.revision == r'.revision ==> r' == r)
  }

  /** Sweeps of an index record, and swaps on a revision read before one. */
  function Disturbances(w: World, ik: IndexKey): nat { w.sweptIndexes[ik] + w.stale[ik] }

  /** What never changes back while a record is undisturbed: a tombstone stays, with its
      list. A revision stands for one value for as long as the record lives. */
  ghost predicate Grows(w: World, w': World) {
    && w.committed <= w'.committed
    && w.sweptBindings <= w'.sweptBindings && w.sweptIndexes <= w'.sweptIndexes && w.stale <= w'.stale
    && (forall ik | ik in w.indexes && Disturbances(w', ik) == Disturbances(w, ik) ::
          ik in w'.indexes && IndexGrows(w.indexes[ik], w'.indexes[ik]))
    && (forall ik | ik in w.indexes && w'.sweptIndexes[ik] == w.sweptIndexes[ik] ::
          ik in w'.indexes && SameAtRevision(w.indexes[ik], w'.indexes[ik]))
    && (forall k | k in w.bindings && w'.sweptBindings[k] == w.sweptBindings[k] ::
          k in w'.bindings && SameAtRevision(w.bindings[k], w'.bindings[k]))
  }

  lemma StepKeepsCores(w: World, a: Action, nowMs: int)
    requires CoresInv(w) && Enabled(w, a, nowMs)
    ensures CoresInv(Next(w, a, nowMs))
  {
  }

  lemma StepKeepsBindings(w: World, a: Action, nowMs: int, k: BindingKey)
    requires Enabled(w, a, nowMs) && k in Next(w, a, nowMs).bindings && (k in w.bindings ==> BindingInv(w, k))
    ensures BindingInv(Next(w, a, nowMs), k)
  {
    hide Ttl, CanCommit, WellFormed;
  }

  lemma StepKeepsIndexes(w: World, a: Action, nowMs: int, ik: IndexKey)
    requires Enabled(w, a, nowMs) && ik in Next(w, a, nowMs).indexes && (ik in w.indexes ==> IndexInv(w, ik))
    ensures IndexInv(Next(w, a, nowMs), ik)
  {
  }

  lemma StepKeepsWorldInv(w: World, a: Action, nowMs: int)
    requires WorldInv(w) && Enabled(w, a, nowMs)
    ensures WorldInv(Next(w, a, nowMs))
  {
    StepKeepsCores(w, a, nowMs);
    var w' := Next(w, a, nowMs);
    forall k | k in w'.bindings ensures BindingInv(w', k) { StepKeepsBindings(w, a, nowMs, k); }
    forall ik | ik in w'.indexes ensures IndexInv(w', ik) { StepKeepsIndexes(w, a, nowMs, ik); }
  }

  lemma IndexStepGrows(w: World, a: Action, nowMs: int, ik: IndexKey)
    requires Enabled(w, a, nowMs) && ik in w.indexes && Disturbances(Next(w, a, nowMs), ik) == Disturbances(w, ik)
    ensures ik in Next(w, a, nowMs).indexes && IndexGrows(w.indexes[ik], Next(w, a, nowMs).indexes[ik])
  {
    hide CanCommit, Ttl, WellFormed;
    if a.SweepIndex? { assert Next(w, a, nowMs).sweptIndexes[a.index] == w.sweptIndexes[a.index] + 1; }
  }

  lemma IndexStepIsFenced(w: World, a: Action, nowMs: int, ik: IndexKey)
    requires Enabled(w, a, nowMs) && ik in w.indexes && Next(w, a, nowMs).sweptIndexes[ik] == w.sweptIndexes[ik]
    ensures ik in Next(w, a, nowMs).indexes && SameAtRevision(w.indexes[ik], Next(w, a, nowMs).indexes[ik])
  {
    hide CanCommit, Ttl, WellFormed;
    if a.SweepIndex? { assert Next(w, a, nowMs).sweptIndexes[a.index] == w.sweptIndexes[a.index] + 1; }
  }

  lemma BindingStepIsFenced(w: World, a: Action, nowMs: int, k: BindingKey)
    requires Enabled(w, a, nowMs) && k in w.bindings && Next(w, a, nowMs).sweptBindings[k] == w.sweptBindings[k]
    ensures k in Next(w, a, nowMs).bindings && SameAtRevision(w.bindings[k], Next(w, a, nowMs).bindings[k])
  {
    hide CanCommit, Ttl, WellFormed;
    if a.SweepBinding? { assert Next(w, a, nowMs).sweptBindings[a.at] == w.sweptBindings[a.at] + 1; }
  }

  lemma CountsGrow(w: World, a: Action, nowMs: int)
    requires Enabled(w, a, nowMs)
    ensures var w' := Next(w, a, nowMs);
            w.committed <= w'.committed && w.sweptBindings <= w'.sweptBindings && w.sweptIndexes <= w'.sweptIndexes
                    && w.stale <= w'.stale
  {
    hide CanCommit, Ttl, WellFormed;
  }

  lemma StepGrows(w: World, a: Action, nowMs: int)
    requires Enabled(w, a, nowMs)
    ensures Grows(w, Next(w, a, nowMs))
  {
    var w' := Next(w, a, nowMs);
    CountsGrow(w, a, nowMs);
    hide Next, Enabled, IndexGrows, SameAtRevision;
    forall ik | ik in w.indexes && Disturbances(w', ik) == Disturbances(w, ik)
      ensures ik in w'.indexes && IndexGrows(w.indexes[ik], w'.indexes[ik])
    {
      IndexStepGrows(w, a, nowMs, ik);
    }
    forall ik | ik in w.indexes && w'.sweptIndexes[ik] == w.sweptIndexes[ik]
      ensures ik in w'.indexes && SameAtRevision(w.indexes[ik], w'.indexes[ik])
    {
      IndexStepIsFenced(w, a, nowMs, ik);
    }
    forall k | k in w.bindings && w'.sweptBindings[k] == w.sweptBindings[k]
      ensures k in w'.bindings && SameAtRevision(w.bindings[k], w'.bindings[k])
    {
      BindingStepIsFenced(w, a, nowMs, k);
    }
  }

  lemma GrowsReflexive(w: World)
    ensures Grows(w, w)
  {
  }

  lemma GrowsTransitive(a: World, b: World, c: World)
    requires Grows(a, b) && Grows(b, c)
    ensures Grows(a, c)
  {
    forall ik | ik in a.indexes && Disturbances(c, ik) == Disturbances(a, ik)
      ensures ik in c.indexes && IndexGrows(a.indexes[ik], c.indexes[ik])
    {
      assert a.sweptIndexes[ik] <= b.sweptIndexes[ik] <= c.sweptIndexes[ik]
             && a.stale[ik] <= b.stale[ik] <= c.stale[ik];
    }
    forall ik | ik in a.indexes && c.sweptIndexes[ik] == a.sweptIndexes[ik]
      ensures ik in c.indexes && SameAtRevision(a.indexes[ik], c.indexes[ik])
    {
      assert a.sweptIndexes[ik] <= b.sweptIndexes[ik] <= c.sweptIndexes[ik];
    }
    forall k | k in a.bindings && c.sweptBindings[k] == a.sweptBindings[k]
      ensures k in c.bindings && SameAtRevision(a.bindings[k], c.bindings[k])
    {
      assert a.sweptBindings[k] <= b.sweptBindings[k] <= c.sweptBindings[k];
    }
  }

  // ------------------------------------------------------------------ what a lookup decides

  datatype Decision = HitNow | Rebind | SayRevoked | SayOrdinary(fence: Option<nat>)

  /** From the three records it read, at whatever moments it read them. */
  function Decide(core: Option<Record<Core>>, binding: Option<Record<Binding>>, index: Option<Record<Index>>,
          i: Identity, ttl: int): Decision
  {
    var ks := KeyString(i.key);
    var usable := core.Some? && core.value.value.expiresAt > i.nowMs && core.value.value.keyString == ks
                  && KeyString(core.value.value.key) == ks;
    if usable && binding.Some? && index.Some? && HitBinding(binding.value.value, i)
            && HitIndex(index.value.value, i) then HitNow
    else if usable && binding.None? && !(index.Some? && index.value.value.revoked) && ttl > 0 then Rebind
    else if (binding.Some? && binding.value.value.revoked) || (index.Some? && index.value.value.revoked) then SayRevoked
    else SayOrdinary(if binding.Some? then Some(binding.value.revision) else None)
  }

  predicate HitBinding(b: Binding, i: Identity) {
    && b.expiresAt > i.nowMs && !b.revoked && b.coreKey == KeyString(i.key) && b.sourceIdentity == i.sourceIdentity
    && b.sourceVersion == i.sourceVersion && b.ownershipScope == i.ownershipScope
  }

  predicate HitIndex(x: Index, i: Identity) {
    && !x.revoked && x.expiresAt > i.nowMs && x.ownershipScope == i.ownershipScope
    && x.sourceIdentity == i.sourceIdentity
    && BindingOf(i) in x.bindingKeys
  }

  // ------------------------------------------------------------------ whole runs

  datatype Event = Event(action: Action, nowMs: int)

  function Perform(w: World, e: Event): World {
    if Enabled(w, e.action, e.nowMs) then Next(w, e.action, e.nowMs) else w
  }

  function Execute(w: World, schedule: seq<Event>): World
    decreases |schedule|
  {
    if schedule == [] then w else Execute(Perform(w, schedule[0]), schedule[1..])
  }

  lemma {:induction false} RunKeepsInv(w: World, schedule: seq<Event>)
    requires WorldInv(w)
    ensures WorldInv(Execute(w, schedule)) && Grows(w, Execute(w, schedule))
    decreases |schedule|
  {
    hide WorldInv, Grows, Enabled, Next;
    GrowsReflexive(w);
    if schedule != [] {
      var e := schedule[0];
      if Enabled(w, e.action, e.nowMs) {
        StepKeepsWorldInv(w, e.action, e.nowMs);
        StepGrows(w, e.action, e.nowMs);
      }
      RunKeepsInv(Perform(w, e), schedule[1..]);
      GrowsTransitive(w, Perform(w, e), Execute(w, schedule));
    }
  }

  lemma EmptyInv()
    ensures WorldInv(EMPTY)
  {
  }

  /** A tombstone, once written, is still there unless the record was swept, or swapped by
      a worker whose read was older than a sweep. */
  lemma TombstoneHolds(before: seq<Event>, after: seq<Event>, ik: IndexKey)
    requires var w := Execute(EMPTY, before); ik in w.indexes && w.indexes[ik].value.revoked
    ensures var w, w' := Execute(EMPTY, before), Execute(Execute(EMPTY, before), after);
            && (Disturbances(w', ik) == Disturbances(w, ik) ==> ik in w'.indexes && w'.indexes[ik] == w.indexes[ik])
            && (w'.sweptIndexes[ik] == 0 ==> Disturbances(w', ik) == Disturbances(w, ik) == 0)
  {
    EmptyInv();
    RunKeepsInv(EMPTY, before);
    RunKeepsInv(Execute(EMPTY, before), after);
  }

  predicate Fenced(w: World, ik: IndexKey) { ik in w.indexes && w.indexes[ik].value.revoked }

  /** The steps that can lift a tombstone. */
  predicate Lifts(a: Action, ik: IndexKey) { (a.SweepIndex? || a.ExtendIndex?) && a.index == ik }

  /** Of all steps enabled on a reachable tombstone exactly a sweep and an extension of that
      index lift it, and such an extension was prepared before the record was last swept. */
  lemma LiftingStep(before: seq<Event>, a: Action, nowMs: int, ik: IndexKey)
    requires Fenced(Execute(EMPTY, before), ik) && Enabled(Execute(EMPTY, before), a, nowMs)
    ensures var w := Execute(EMPTY, before);
            && (!Fenced(Next(w, a, nowMs), ik) <==> Lifts(a, ik))
            && (Lifts(a, ik) && a.ExtendIndex? ==> a.seen.lifetime < w.sweptIndexes[ik])
  {
    StepLifts(Execute(EMPTY, before), a, nowMs, ik);
  }

  lemma StepLifts(w: World, a: Action, nowMs: int, ik: IndexKey)
    requires Fenced(w, ik) && Enabled(w, a, nowMs)
    ensures !Fenced(Next(w, a, nowMs), ik) <==> Lifts(a, ik)
    ensures Lifts(a, ik) && a.ExtendIndex? ==> a.seen.lifetime < w.sweptIndexes[ik]
  {
    hide CanCommit, WellFormed, Ttl;
  }

  /** A revocation outlasts its own moment and what it revokes: no sweep that scans up to
      then, or while the record revoked would have lasted, finds it expired. */
  lemma RevocationsAreKept(w: World, a: Action, nowMs: int, scanMs: int)
    requires Enabled(w, a, nowMs)
    ensures a.RevokeIndex? ==>
              && Fenced(Next(w, a, nowMs), a.index)
              && (scanMs <= nowMs || scanMs < a.seen.index.expiresAt ==>
                    !Expired(Next(w, a, nowMs).indexes[a.index], scanMs))
    ensures a.RevokeBinding? ==>
              && Next(w, a, nowMs).bindings[a.at].value.revoked
              && (scanMs <= nowMs || scanMs < a.was.expiresAt ==>
                    !Expired(Next(w, a, nowMs).bindings[a.at], scanMs))
  {
    hide CanCommit, WellFormed, Ttl;
  }

  predicate FencedThroughout(w: World, schedule: seq<Event>, ik: IndexKey)
    decreases |schedule|
  {
    Fenced(w, ik) && (schedule != [] ==> FencedThroughout(Perform(w, schedule[0]), schedule[1..], ik))
  }

  predicate LiftPerformed(w: World, schedule: seq<Event>, ik: IndexKey)
    decreases |schedule|
  {
    schedule != [] &&
    var e := schedule[0];
    (Enabled(w, e.action, e.nowMs) && Lifts(e.action, ik)) || LiftPerformed(Perform(w, e), schedule[1..], ik)
  }

  /** Over every run: a tombstone stands at every moment of what follows if and only if
      nothing that follows performs one of those steps on it. */
  lemma TombstoneHoldsExactly(before: seq<Event>, after: seq<Event>, ik: IndexKey)
    requires Fenced(Execute(EMPTY, before), ik)
    ensures FencedThroughout(Execute(EMPTY, before), after, ik) <==> !LiftPerformed(Execute(EMPTY, before), after, ik)
  {
    FencedUnlessLifted(Execute(EMPTY, before), after, ik);
  }

  lemma {:induction false} FencedUnlessLifted(w: World, schedule: seq<Event>, ik: IndexKey)
    requires Fenced(w, ik)
    ensures FencedThroughout(w, schedule, ik) <==> !LiftPerformed(w, schedule, ik)
    ensures !LiftPerformed(w, schedule, ik) ==> Fenced(Execute(w, schedule), ik)
    decreases |schedule|
  {
    hide Enabled, Next;
    if schedule != [] {
      var e := schedule[0];
      if Enabled(w, e.action, e.nowMs) { StepLifts(w, e.action, e.nowMs, ik); }
      if Fenced(Perform(w, e), ik) { FencedUnlessLifted(Perform(w, e), schedule[1..], ik); }
    }
  }

  /** The tombstone is what stops a source: it stands if and only if no core, binding and
      time to live make a lookup of it hit or rebind. */
  lemma FenceIsExactlyNoHit(w: World, i: Identity)
    ensures Fenced(w, IndexOf(i)) <==>
              forall core, binding, ttl :: !(Decide(core, binding, IndexAt(w, IndexOf(i)), i, ttl).HitNow?
                                             || Decide(core, binding, IndexAt(w, IndexOf(i)), i, ttl).Rebind?)
  {
    if !Fenced(w, IndexOf(i)) {
      var core := Core(i.key, KeyString(i.key), Inline(""), Provenance(true, 0, "", ""), i.nowMs, i.nowMs + 1);
      assert Decide(Some(Fresh(core, 0, None)), None, IndexAt(w, IndexOf(i)), i, 1).Rebind?;
    }
  }

  /** The revocation fence. Whatever commits, rebinds and refreshes were under way: after
      a source is tombstoned, a lookup whose index read comes later does not hit and does
      not rebind while the tombstone is not lifted, and no index entry is added on what
      is read then. The core and binding it pairs with that read may come from any moment. */
  lemma RevokedSourceDoesNotHit(before: seq<Event>, after: seq<Event>, i: Identity, core: Option<Record<Core>>,
          binding: Option<Record<Binding>>, ttl: int, k: BindingKey, until: int, nowMs: int)
    requires Fenced(Execute(EMPTY, before), IndexOf(i)) && !LiftPerformed(Execute(EMPTY, before), after, IndexOf(i))
    ensures var w' := Execute(Execute(EMPTY, before), after);
            && Decide(core, binding, IndexAt(w', IndexOf(i)), i, ttl) == SayRevoked
            && !Enabled(w', CreateIndex(IndexOf(i), k, until), nowMs)
            && forall seen: Seen | seen.lifetime == w'.sweptIndexes[IndexOf(i)] ::
                 !Enabled(w', ExtendIndex(IndexOf(i), seen, k, until), nowMs)
  {
    FencedUnlessLifted(Execute(EMPTY, before), after, IndexOf(i));
  }

  /** In particular it holds for good on a record that is never swept. */
  lemma RevokedSourceDoesNotHitUnswept(before: seq<Event>, after: seq<Event>, i: Identity, core: Option<Record<Core>>,
          binding: Option<Record<Binding>>, ttl: int)
    requires var w := Execute(EMPTY, before); IndexOf(i) in w.indexes && w.indexes[IndexOf(i)].value.revoked
    requires Execute(Execute(EMPTY, before), after).sweptIndexes[IndexOf(i)] == 0
    ensures Decide(core, binding, IndexAt(Execute(Execute(EMPTY, before), after), IndexOf(i)), i, ttl) == SayRevoked
  {
    TombstoneHolds(before, after, IndexOf(i));
  }

  // ------------------------------------------------------------------ the map the cache speeds up

  /** The plain map from key string to the last commit under it: no revisions, bindings,
      indexes or blobs; a swept key is forgotten. */
  function Plain(schedule: seq<Event>): map<string, Core>
    decreases |schedule|
  {
    if schedule == [] then map[] else
    var prior, e := schedule[..|schedule| - 1], schedule[|schedule| - 1];
    PlainStep(Plain(prior), e.action, Enabled(Execute(EMPTY, prior), e.action, e.nowMs))
  }

  function PlainStep(m: map<string, Core>, a: Action, happened: bool): map<string, Core> {
    match a
    case WriteCore(c) => if happened then m[c.keyString := c] else m
    case SweepCore(ks, _) => if happened then m - {ks} else m
    case _ => m
  }

  lemma {:induction false} ExecuteLast(w: World, schedule: seq<Event>)
    requires schedule != []
    ensures Execute(w, schedule) == Perform(Execute(w, schedule[..|schedule| - 1]), schedule[|schedule| - 1])
    decreases |schedule|
  {
    if |schedule| > 1 {
      ExecuteLast(Perform(w, schedule[0]), schedule[1..]);
      assert schedule[1..][..|schedule| - 2] == schedule[..|schedule| - 1][1..];
    }
  }

  ghost predicate HoldsPlain(w: World, m: map<string, Core>) {
    && (forall ks | ks in m :: HoldsAt(w, m, ks)) && (forall ks | ks in w.cores :: ks in m)
  }

  predicate HoldsAt(w: World, m: map<string, Core>, ks: string)
    requires ks in m
  {
    ks in w.cores && w.cores[ks].value == m[ks] && w.cores[ks].expiresAt == Some(m[ks].expiresAt)
  }

  lemma EmptyRun()
    ensures Execute(EMPTY, []) == EMPTY
  {
  }

  /** What a step does to the core records. */
  function CoresAfter(w: World, a: Action, nowMs: int): map<string, Record<Core>> {
    match a
    case WriteCore(c) => w.cores[c.keyString := Put(CoreAt(w, c.keyString), c, nowMs, c.expiresAt)]
    case SweepCore(ks, _) => w.cores - {ks}
    case _ => w.cores
  }

  lemma StepOnCores(w: World, a: Action, nowMs: int)
    requires Enabled(w, a, nowMs)
    ensures Next(w, a, nowMs).cores == CoresAfter(w, a, nowMs)
  {
    hide Enabled, CanCommit, Put, Revoked, Tombstone, Extended, FirstIndex;
    match a
    case ExtendIndex(_, _, _, _) =>
    case RevokeIndex(_, _) =>
    case _ =>
  }

  lemma StepRefinesPlainMap(w: World, m: map<string, Core>, e: Event)
    requires HoldsPlain(w, m)
    ensures HoldsPlain(Perform(w, e), PlainStep(m, e.action, Enabled(w, e.action, e.nowMs)))
  {
    if Enabled(w, e.action, e.nowMs) { StepOnCores(w, e.action, e.nowMs); }
    hide Next, CanCommit, Enabled;
    var w', m' := Perform(w, e), PlainStep(m, e.action, Enabled(w, e.action, e.nowMs));
    forall ks | ks in m' ensures HoldsAt(w', m', ks) { assert ks in m ==> HoldsAt(w, m, ks); }
  }

  lemma {:induction false} CoresRefinePlainMap(schedule: seq<Event>)
    ensures HoldsPlain(Execute(EMPTY, schedule), Plain(schedule))
    decreases |schedule|
  {
    hide Execute, Perform, PlainStep, Enabled;
    if schedule == [] {
      EmptyRun();
    } else {
      var prior, e := schedule[..|schedule| - 1], schedule[|schedule| - 1];
      CoresRefinePlainMap(prior);
      ExecuteLast(EMPTY, schedule);
      StepRefinesPlainMap(Execute(EMPTY, prior), Plain(prior), e);
    }
  }

  /** Every hit returns what the plain map held under that key string when the core was
      read: the data of the last commit under it, unexpired at the lookup's time; and that
      core was committed by someone. */
  lemma HitsReturnThePlainMap(schedule: seq<Event>, i: Identity, binding: Option<Record<Binding>>,
          index: Option<Record<Index>>, ttl: int)
    requires var d := Decide(CoreAt(Execute(EMPTY, schedule), KeyString(i.key)), binding, index, i, ttl);
             d.HitNow? || d.Rebind?
    ensures var w, ks := Execute(EMPTY, schedule), KeyString(i.key);
            && ks in Plain(schedule) && ks in w.cores
            && DataOf(w.cores[ks].value) == DataOf(Plain(schedule)[ks])
            && Plain(schedule)[ks].expiresAt > i.nowMs
            && w.cores[ks].value in w.committed
  {
    CoresRefinePlainMap(schedule);
    EmptyInv();
    RunKeepsInv(EMPTY, schedule);
  }

  // ------------------------------------------------------------------ what a hit needs

  /** The binding record this request reads was made, by some commit or rebind, for the same
      key, scope, source and version of the source; neither the core it was made of nor the
      time to live it was made with has run out, and it was not revoked. */
  predicate BoundFor(w: World, i: Identity) {
    var k := BindingOf(i);
    && k in w.bindings && !w.bindings[k].value.revoked && k in w.origins
    && var o := w.origins[k];
    && KeyString(o.identity.key) == KeyString(i.key) && o.identity.ownershipScope == i.ownershipScope
    && o.identity.sourceIdentity == i.sourceIdentity && o.identity.sourceVersion == i.sourceVersion
    && o.core.keyString == KeyString(i.key) && i.nowMs < o.core.expiresAt
    && i.nowMs < o.identity.nowMs + Ttl(o.settings, o.identity) * 1000
  }

  /** The live index of the request's source lists its binding. */
  predicate ListedFor(w: World, i: Identity) {
    && IndexOf(i) in w.indexes && !w.indexes[IndexOf(i)].value.revoked
    && i.nowMs < w.indexes[IndexOf(i)].value.expiresAt
    && BindingOf(i) in w.indexes[IndexOf(i)].value.bindingKeys
  }

  /** The moments of the three parallel reads of one lookup. */
  datatype Reads = Reads(core: World, binding: World, index: World)

  function DecisionOf(m: Reads, i: Identity, ttl: int): Decision {
    Decide(CoreAt(m.core, KeyString(i.key)), BindingAt(m.binding, BindingOf(i)), IndexAt(m.index, IndexOf(i)), i, ttl)
  }

  /** An unexpired core is there to be found. */
  predicate CoreFor(w: World, i: Identity) {
    KeyString(i.key) in w.cores && i.nowMs < w.cores[KeyString(i.key)].value.expiresAt
  }

  /** What each decision of a lookup needs, in terms of the requests behind the records. */
  predicate DecidedRightly(m: Reads, i: Identity, ttl: int, d: Decision) {
    var bound, tombstone := BindingOf(i) in m.binding.bindings, Fenced(m.index, IndexOf(i));
    var hit := CoreFor(m.core, i) && BoundFor(m.binding, i) && ListedFor(m.index, i);
    var rebind := CoreFor(m.core, i) && !bound && !tombstone && ttl > 0;
    && (d.HitNow? <==> hit)
    && (d.Rebind? <==> rebind)
    && (d.SayRevoked? <==> !rebind && (tombstone || (bound && m.binding.bindings[BindingOf(i)].value.revoked)))
    && (d.SayOrdinary? ==>
          d.fence == if bound then Some(m.binding.bindings[BindingOf(i)].revision) else None)
  }

  /** Over every run, whatever moments of it the three reads fall in: a lookup hits if and
      only if it read an unexpired core, a live binding made for this very key, scope,
      source and version, and a live index of the source that lists it; and so for the other
      answers. */
  lemma LookupDecidesExactly(core: seq<Event>, binding: seq<Event>, index: seq<Event>, i: Identity, ttl: int)
    ensures var m := Reads(Execute(EMPTY, core), Execute(EMPTY, binding), Execute(EMPTY, index));
            DecidedRightly(m, i, ttl, DecisionOf(m, i, ttl))
  {
    hide Execute, WorldInv;
    EmptyInv();
    RunKeepsInv(EMPTY, core);
    RunKeepsInv(EMPTY, binding);
    RunKeepsInv(EMPTY, index);
    DecisionIsRight(Reads(Execute(EMPTY, core), Execute(EMPTY, binding), Execute(EMPTY, index)), i, ttl);
  }

  lemma DecisionIsRight(m: Reads, i: Identity, ttl: int)
    requires WorldInv(m.core) && WorldInv(m.binding) && WorldInv(m.index)
    ensures DecidedRightly(m, i, ttl, DecisionOf(m, i, ttl))
  {
    hide Ttl, KeyString;
    CoreIsItsOwn(m.core, KeyString(i.key));
    BindingIsItsOwn(m.binding, BindingOf(i));
    IndexIsItsOwn(m.index, IndexOf(i));
  }

  lemma CoreIsItsOwn(w: World, ks: string)
    requires WorldInv(w)
    ensures ks in w.cores ==> w.cores[ks].value.keyString == ks == KeyString(w.cores[ks].value.key)
  {
    hide KeyString;
    assert ks in w.cores ==> CanCommit(w.cores[ks].value);
  }

  lemma BindingIsItsOwn(w: World, k: BindingKey)
    requires WorldInv(w)
    ensures k in w.bindings ==> Addressed(k, w.bindings[k].value)
    ensures k in w.bindings && !w.bindings[k].value.revoked ==>
              k in w.origins && MadeFrom(w, k, w.bindings[k].value, w.origins[k])
  {
    assert k in w.bindings ==> BindingInv(w, k);
  }

  lemma IndexIsItsOwn(w: World, ik: IndexKey)
    requires WorldInv(w)
    ensures ik in w.indexes ==> WellFormed(ik, w.indexes[ik].value)
  {
    assert ik in w.indexes ==> IndexInv(w, ik);
  }

  /** Of any records at all, reachable or not, a hit takes only those that carry the
      request's own key, scope, source and version. */
  lemma HitRecordsAreTheRequests(core: Option<Record<Core>>, binding: Option<Record<Binding>>,
          index: Option<Record<Index>>, i: Identity, ttl: int)
    ensures Decide(core, binding, index, i, ttl).HitNow? ==>
              && core.Some? && binding.Some? && index.Some?
              && core.value.value.keyString == KeyString(core.value.value.key) == KeyString(i.key)
              && Addressed(BindingOf(i), binding.value.value) && binding.value.value.sourceVersion == i.sourceVersion
              && IndexKey(index.value.value.ownershipScope, index.value.value.sourceIdentity) == IndexOf(i)
  {
    hide KeyString;
  }

  // ------------------------------------------------------------------ isolation and time bound

  /** The steps revoking one source consists of. */
  predicate RevokesOnly(a: Action, scope: string, source: string) {
    (a.RevokeIndex? && a.index == IndexKey(scope, source)) ||
    (a.RevokeBinding? && a.at.scope == scope && a.at.source == source)
  }

  /** The revocation of a source reaches its own bindings only: the index lists no others. */
  lemma IndexListsItsOwn(schedule: seq<Event>, ik: IndexKey)
    requires ik in Execute(EMPTY, schedule).indexes
    ensures var keys := Execute(EMPTY, schedule).indexes[ik].value.bindingKeys;
            && |keys| <= MAX_SOURCE_BINDINGS
            && (forall n | 0 <= n < |keys| :: keys[n].scope == ik.scope && keys[n].source == ik.source)
            && (forall m, n | 0 <= m < n < |keys| :: keys[m] != keys[n])
  {
    EmptyInv();
    RunKeepsInv(EMPTY, schedule);
    assert IndexInv(Execute(EMPTY, schedule), ik);
  }

  /** The steps a revocation issues once it has read an index record: the tombstone, and
      the revocation of a binding the record lists. */
  predicate Issues(ik: IndexKey, x: Index, a: Action) {
    (a.RevokeIndex? && a.index == ik) || (a.RevokeBinding? && a.at in x.bindingKeys)
  }

  /** Revoking a source, from an index record of any reachable world on, changes nothing any
      other source's lookup reads, even of a core they share: each step it issues leaves
      that alone in whatever world it is performed. */
  lemma RevocationIsIsolated(before: seq<Event>, ik: IndexKey, w: World, steps: seq<Event>, i: Identity, ttl: int)
    requires ik in Execute(EMPTY, before).indexes && IndexOf(i) != ik
    requires forall n | 0 <= n < |steps| :: Issues(ik, Execute(EMPTY, before).indexes[ik].value, steps[n].action)
    ensures var w', ks := Execute(w, steps), KeyString(i.key);
            Decide(CoreAt(w', ks), BindingAt(w', BindingOf(i)), IndexAt(w', IndexOf(i)), i, ttl)
            == Decide(CoreAt(w, ks), BindingAt(w, BindingOf(i)), IndexAt(w, IndexOf(i)), i, ttl)
            && w'.cores == w.cores && w'.blobs == w.blobs
  {
    IndexListsItsOwn(before, ik);
    forall n | 0 <= n < |steps| ensures RevokesOnly(steps[n].action, ik.scope, ik.source) {
      IssuedRevokesOnly(ik, Execute(EMPTY, before).indexes[ik].value, steps[n].action);
    }
    RevokingOnlyIsIsolated(w, steps, ik.scope, ik.source, i, ttl);
  }

  lemma IssuedRevokesOnly(ik: IndexKey, x: Index, a: Action)
    requires forall n | 0 <= n < |x.bindingKeys| ::
               x.bindingKeys[n].scope == ik.scope && x.bindingKeys[n].source == ik.source
    requires Issues(ik, x, a)
    ensures RevokesOnly(a, ik.scope, ik.source)
  {
  }

  lemma {:induction false} RevokingOnlyIsIsolated(w: World, schedule: seq<Event>, scope: string, source: string,
          i: Identity, ttl: int)
    requires IndexOf(i) != IndexKey(scope, source)
    requires forall n | 0 <= n < |schedule| :: RevokesOnly(schedule[n].action, scope, source)
    ensures var w', ks := Execute(w, schedule), KeyString(i.key);
            && CoreAt(w', ks) == CoreAt(w, ks) && BindingAt(w', BindingOf(i)) == BindingAt(w, BindingOf(i))
            && IndexAt(w', IndexOf(i)) == IndexAt(w, IndexOf(i))
            && w'.cores == w.cores && w'.blobs == w.blobs
    decreases |schedule|
  {
    if schedule != [] {
      assert RevokesOnly(schedule[0].action, scope, source);
      RevokingOnlyIsIsolated(Perform(w, schedule[0]), schedule[1..], scope, source, i, ttl);
    }
  }

  /** Every live binding, in every run, ends with the core it was made of or with the time
      to live of the request it was made for, so by the core's expiry, the operator's cap
      and the source's own expiry. */
  lemma BindingsAreTimeBound(schedule: seq<Event>, k: BindingKey)
    requires k in Execute(EMPTY, schedule).bindings && !Execute(EMPTY, schedule).bindings[k].value.revoked
    ensures var w := Execute(EMPTY, schedule);
            && k in w.origins
            && var o, b := w.origins[k], w.bindings[k].value;
            && o.core in w.committed && o.core.keyString == k.ks && k == BindingOf(o.identity)
            && b.sourceVersion == o.identity.sourceVersion && b.createdAt == o.identity.nowMs
            && (b.expiresAt == o.core.expiresAt || b.expiresAt == o.identity.nowMs + Ttl(o.settings, o.identity) * 1000)
            && b.expiresAt <= o.core.expiresAt && Within(b.expiresAt, BoundOf(o.settings, o.identity))
  {
    EmptyInv();
    RunKeepsInv(EMPTY, schedule);
    var w := Execute(EMPTY, schedule);
    assert BindingInv(w, k);
    TtlIsWithinBounds(w.origins[k].settings, w.origins[k].identity);
  }

  /** An ordinary commit's fence: if the binding it looked up has since been revoked or
      rewritten, its compare-and-swap on the revision it read cannot succeed, for as long
      as that binding record lives. */
  lemma OrdinaryCommitIsFenced(before: seq<Event>, after: seq<Event>, k: BindingKey, value: Binding, nowMs: int)
    requires k in Execute(EMPTY, before).bindings
    requires var w, w' := Execute(EMPTY, before), Execute(Execute(EMPTY, before), after);
             w'.sweptBindings[k] == w.sweptBindings[k] && BindingAt(w', k) != BindingAt(w, k)
    ensures var w, w' := Execute(EMPTY, before), Execute(Execute(EMPTY, before), after);
            Cas(w'.bindings, k, w.bindings[k].revision, value, nowMs, Some(value.expiresAt)) == w'.bindings
  {
    EmptyInv();
    RunKeepsInv(EMPTY, before);
    RunKeepsInv(Execute(EMPTY, before), after);
  }

  // ------------------------------------------------------------------ sweeping

  /** A sweep deletes by the revision its scan saw. If no other sweep deleted the index
      in between, what it deletes is what it scanned: an expired record. */
  lemma SweepDeletesWhatItScanned(before: seq<Event>, after: seq<Event>, ik: IndexKey, scannedAt: int)
    requires ik in Execute(EMPTY, before).indexes && Expired(Execute(EMPTY, before).indexes[ik], scannedAt)
    requires var w, w' := Execute(EMPTY, before), Execute(Execute(EMPTY, before), after);
             w'.sweptIndexes[ik] == w.sweptIndexes[ik] && Enabled(w', SweepIndex(ik, w.indexes[ik].revision), scannedAt)
    ensures Expired(Execute(Execute(EMPTY, before), after).indexes[ik], scannedAt)
  {
    EmptyInv();
    RunKeepsInv(EMPTY, before);
    RunKeepsInv(Execute(EMPTY, before), after);
  }

  lemma ExecuteTwo(w: World, a: Event, b: Event)
    ensures Execute(w, [a, b]) == Perform(Perform(w, a), b)
  {
    assert [a, b][1..] == [b] && [b][1..] == [];
    assert Execute(Perform(w, a), [b]) == Execute(Perform(Perform(w, a), b), []);
  }

  lemma ExecuteSplit(w: World, a: seq<Event>, b: seq<Event>)
    ensures Execute(w, a + b) == Execute(Execute(w, a), b)
    decreases |a|
  {
    if a == [] {
      assert a + b == b;
    } else {
      assert (a + b)[1..] == a[1..] + b;
      ExecuteSplit(Perform(w, a[0]), a[1..], b);
    }
  }

  /** The two steps that create an index and tombstone it. */
  lemma FreshTombstone(w: World, ik: IndexKey, k: BindingKey, until: int, at: int)
    requires ik !in w.indexes && k.scope == ik.scope && k.source == ik.source && until > at + 2
    ensures var w' := Execute(w, Tombstoning(w, ik, k, until, at));
            && ik in w'.indexes && w'.indexes[ik].revision == 2 && w'.indexes[ik].value.revoked
                    && w'.indexes[ik].expiresAt == Some(until)
            && w'.sweptIndexes == w.sweptIndexes
  {
    var e1 := Event(CreateIndex(ik, k, until), at);
    var e2 := Event(RevokeIndex(ik, Seen(FirstIndex(ik, k, until, at), 1, w.sweptIndexes[ik])), at + 1);
    ExecuteTwo(w, e1, e2);
    var w1 := Perform(w, e1);
    assert w1.indexes[ik] == Fresh(FirstIndex(ik, k, until, at), at, Some(until));
    assert Enabled(w1, e2.action, at + 1);
  }

  function Tombstoning(w: World, ik: IndexKey, k: BindingKey, until: int, at: int): seq<Event> {
    [Event(CreateIndex(ik, k, until), at),
     Event(RevokeIndex(ik, Seen(FirstIndex(ik, k, until, at), 1, w.sweptIndexes[ik])), at + 1)]
  }

  /** If another did, it may not be: revisions restart at 1, so a second sweep still
      holding the old revision deletes a younger tombstone that has not expired. */
  lemma StaleSweepDropsLiveTombstone()
    ensures exists before: seq<Event>, between: seq<Event>, ik: IndexKey ::
              var w, w' := Execute(EMPTY, before), Execute(Execute(EMPTY, before), between);
              && ik in w.indexes && Expired(w.indexes[ik], 30)
              && ik in w'.indexes && w'.indexes[ik].value.revoked && !Expired(w'.indexes[ik], 33)
              && Enabled(w', SweepIndex(ik, w.indexes[ik].revision), 33)
  {
    hide Perform, Execute;
    var ik, k := IndexKey("s", "x"), BindingKey("c", "s", "x");
    var before := Tombstoning(EMPTY, ik, k, 20, 10);
    FreshTombstone(EMPTY, ik, k, 20, 10);
    var w := Execute(EMPTY, before);
    var sweep := [Event(SweepIndex(ik, 2), 30)];
    SweptIndex(w, ik, 2, 30);
    var w3 := Execute(w, sweep);
    var again := Tombstoning(w3, ik, k, 100, 31);
    FreshTombstone(w3, ik, k, 100, 31);
    ExecuteSplit(w, sweep, again);
    var between := sweep + again;
    assert Execute(Execute(EMPTY, before), between) == Execute(w3, again);
  }

  /** And a worker whose read is older than a sweep lifts a younger tombstone: it swaps on
      a revision that has come round again. The source hits again at once. */
  lemma StaleSwapLiftsTombstone()
    ensures exists before: seq<Event>, ik: IndexKey, a: Action ::
              var w := Execute(EMPTY, before);
              && ik in w.indexes && w.indexes[ik].value.revoked && !Expired(w.indexes[ik], 33)
              && Enabled(w, a, 33) && a.ExtendIndex?
              && ik in Next(w, a, 33).indexes && !Next(w, a, 33).indexes[ik].value.revoked
  {
    hide Perform, Execute;
    var ik, k, l := IndexKey("s", "x"), BindingKey("c", "s", "x"), BindingKey("d", "s", "x");
    var first := FirstIndex(ik, k, 20, 10);
    var open := [Event(CreateIndex(ik, k, 20), 10), Event(ExtendIndex(ik, Seen(first, 1, 0), l, 20), 11)];
    OpenIndex(ik, k, l);
    var w := Execute(EMPTY, open);
    var held := Seen(w.indexes[ik].value, 2, 0);
    var sweep := [Event(SweepIndex(ik, 2), 30)];
    SweptIndex(w, ik, 2, 30);
    var w3 := Execute(w, sweep);
    var again := Tombstoning(w3, ik, k, 100, 31);
    FreshTombstone(w3, ik, k, 100, 31);
    ExecuteSplit(w, sweep, again);
    ExecuteSplit(EMPTY, open, sweep + again);
    var w5 := Execute(EMPTY, open + (sweep + again));
    assert w5 == Execute(w3, again);
    var a := ExtendIndex(ik, held, l, 100);
    assert CanSwap(w5, ik, held);
    assert Enabled(w5, a, 33) && !Next(w5, a, 33).indexes[ik].value.revoked;
  }

  lemma OpenIndex(ik: IndexKey, k: BindingKey, l: BindingKey)
    requires k.scope == l.scope == ik.scope && k.source == l.source == ik.source && k != l
    ensures var w := Execute(EMPTY,
                             [Event(CreateIndex(ik, k, 20), 10),
                              Event(ExtendIndex(ik, Seen(FirstIndex(ik, k, 20, 10), 1, 0), l, 20), 11)]);
            && ik in w.indexes && w.indexes[ik].revision == 2 && w.sweptIndexes[ik] == 0
            && WellFormed(ik, w.indexes[ik].value) && !w.indexes[ik].value.revoked
            && l in w.indexes[ik].value.bindingKeys
  {
    var e1 := Event(CreateIndex(ik, k, 20), 10);
    var e2 := Event(ExtendIndex(ik, Seen(FirstIndex(ik, k, 20, 10), 1, 0), l, 20), 11);
    ExecuteTwo(EMPTY, e1, e2);
    var w1 := Perform(EMPTY, e1);
    assert w1.indexes[ik] == Fresh(FirstIndex(ik, k, 20, 10), 10, Some(20));
    assert Enabled(w1, e2.action, 11);
    EmptyInv();
    StepKeepsWorldInv(EMPTY, e1.action, 10);
    StepKeepsWorldInv(w1, e2.action, 11);
    assert IndexInv(Perform(w1, e2), ik);
  }

  lemma SweptIndex(w: World, ik: IndexKey, revision: nat, at: int)
    requires ik in w.indexes && w.indexes[ik].revision == revision
    ensures var w' := Execute(w, [Event(SweepIndex(ik, revision), at)]);
            ik !in w'.indexes && w'.sweptIndexes[ik] == w.sweptIndexes[ik] + 1
  {
    var e := Event(SweepIndex(ik, revision), at);
    assert [e][1..] == [];
    assert Execute(w, [e]) == Execute(Perform(w, e), []);
  }
}
