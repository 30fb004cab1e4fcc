/** The revision-fenced record store every durable protocol rests on
    (src/core/durable-store.ts).

    `Create`, `Cas` and `Remove` say what one atomic store call does to the record
    map, for any type of key and value. The class below is the in-memory adapter: it
    changes its map in place and is proved against those functions. The protocol
    modules use the same functions for their own records. */
module DurableStore {

  datatype Option<+T> = None | Some(value: T)

  datatype Record<+V> = Record(value: V, revision: nat, createdAt: int, updatedAt: int, expiresAt: Option<int>)

  datatype CreateResult<+V> = Created(record: Record<V>) | Exists(record: Record<V>)

  datatype CasResult<+V> = Updated(record: Record<V>) | Conflict(record: Record<V>) | Missing

  datatype DeleteResult = Deleted | DeleteConflict | DeleteMissing

  function Fresh<V>(value: V, nowMs: int, expiresAt: Option<int>): Record<V> {
    Record(value, 1, nowMs, nowMs, expiresAt)
  }

  /** The record a successful compare-and-swap leaves behind. */
  function Bump<V>(r: Record<V>, value: V, nowMs: int, expiresAt: Option<int>): Record<V> {
    Record(value, r.revision + 1, r.createdAt, nowMs, expiresAt)
  }

  function Create<K, V>(m: map<K, Record<V>>, key: K, value: V, nowMs: int, expiresAt: Option<int>): map<K, Record<V>> {
    if key in m then m else m[key := Fresh(value, nowMs, expiresAt)]
  }

  function Cas<K, V>(m: map<K, Record<V>>, key: K, expected: nat, value: V, nowMs: int, expiresAt: Option<int>)
    : map<K, Record<V>>
  {
    if key in m && m[key].revision == expected then m[key := Bump(m[key], value, nowMs, expiresAt)] else m
  }

  function Remove<K, V>(m: map<K, Record<V>>, key: K, expected: nat): map<K, Record<V>> {
    if key in m && m[key].revision == expected then m - {key} else m
  }

  // ------------------------------------------------------------------ fencing over whole runs

  /** One store call, by whichever worker. */
  datatype Op<K, V> =
    | OpCreate(key: K, value: V, nowMs: int, expiresAt: Option<int>)
    | OpCas(key: K, expected: nat, value: V, nowMs: int, expiresAt: Option<int>)
    | OpDelete(key: K, expected: nat)

  function Apply<K, V>(m: map<K, Record<V>>, op: Op<K, V>): map<K, Record<V>> {
    match op
    case OpCreate(k, v, now, exp) => Create(m, k, v, now, exp)
    case OpCas(k, rev, v, now, exp) => Cas(m, k, rev, v, now, exp)
    case OpDelete(k, rev) => Remove(m, k, rev)
  }

  function Run<K, V>(m: map<K, Record<V>>, ops: seq<Op<K, V>>): map<K, Record<V>>
    decreases |ops|
  {
    if ops == [] then m else Run(Apply(m, ops[0]), ops[1..])
  }

  predicate NeverDeletes<K(==), V>(ops: seq<Op<K, V>>, key: K) {
    forall i | 0 <= i < |ops| :: !(ops[i].OpDelete? && ops[i].key == key)
  }

  /** Fencing: while a key is not deleted its revision only grows, and finding the
      revision read earlier means finding the very record read earlier. */
  lemma {:induction false} EqualRevisionMeansUnchanged<K, V>(m: map<K, Record<V>>, ops: seq<Op<K, V>>, key: K)
    requires key in m && NeverDeletes(ops, key)
    ensures key in Run(m, ops)
    ensures m[key].revision <= Run(m, ops)[key].revision
    ensures m[key].revision == Run(m, ops)[key].revision <==> m[key] == Run(m, ops)[key]
    ensures m[key].createdAt == Run(m, ops)[key].createdAt
    decreases |ops|
  {
    if ops != [] {
      assert !(ops[0].OpDelete? && ops[0].key == key);
      EqualRevisionMeansUnchanged(Apply(m, ops[0]), ops[1..], key);
    }
  }

  /** A revision is a ticket that can be spent once: after a compare-and-swap on it
      succeeds, no later one expecting it succeeds, whatever runs in between. */
  lemma RevisionIsSpentOnce<K, V>(m: map<K, Record<V>>, key: K, expected: nat, value: V, nowMs: int,
          expiresAt: Option<int>, ops: seq<Op<K, V>>)
    requires key in m && m[key].revision == expected && NeverDeletes(ops, key)
    ensures var after := Run(Cas(m, key, expected, value, nowMs, expiresAt), ops);
            key in after && after[key].revision > expected
    ensures forall v: V, now: int, e: Option<int> ::
              var after := Run(Cas(m, key, expected, value, nowMs, expiresAt), ops);
              Cas(after, key, expected, v, now, e) == after
  {
    EqualRevisionMeansUnchanged(Cas(m, key, expected, value, nowMs, expiresAt), ops, key);
  }

  /** The fence ends with the record: revisions restart at 1 after a delete, so a
      compare-and-swap prepared against the old record can overwrite a new one. */
  lemma DeletionReopensRevisions()
    ensures exists m: map<int, Record<int>>, ops: seq<Op<int, int>>, key: int ::
              key in m && key in Run(m, ops) &&
              m[key].revision == Run(m, ops)[key].revision && m[key] != Run(m, ops)[key]
  {
    var stale := Fresh(7, 0, None);
    var m: map<int, Record<int>> := map[0 := stale];
    var ops: seq<Op<int, int>> := [OpDelete(0, 1), OpCreate(0, 8, 5, None)];
    var gone: map<int, Record<int>> := map[];
    assert Apply(m, ops[0]) == gone;
    assert ops[1..] == [OpCreate(0, 8, 5, None)];
    assert Run(m, ops) == Run(gone, ops[1..]) == Run(Apply(gone, ops[1]), ops[1..][1..]);
    assert Run(m, ops) == map[0 := Fresh(8, 5, None)];
    assert 0 in m && m[0].revision == Run(m, ops)[0].revision && m[0] != Run(m, ops)[0];
  }

  // ------------------------------------------------------------------ the in-memory adapter

  const MAX_DURABLE_METADATA_BYTES := 64 * 1024
  const MAX_DURABLE_KEY_CHARS := 240
  const MAX_SAFE_INTEGER := 9007199254740991

  predicate KeyChar(c: char) {
    'A' <= c <= 'Z' || 'a' <= c <= 'z' || '0' <= c <= '9' || c == '.' || c == '_' || c == ':' || c == '-'
  }

  predicate ValidKey(key: string) {
    0 < |key| <= MAX_DURABLE_KEY_CHARS && forall i | 0 <= i < |key| :: KeyChar(key[i])
  }

  function Utf8Length(s: string): nat {
    if s == [] then 0
    else (var c := s[0] as int; if c < 0x80 then 1 else if c < 0x800 then 2 else if c < 0x10000 then 3 else 4)
         + Utf8Length(s[1..])
  }

  predicate SafeTime(t: int) { 0 <= t <= MAX_SAFE_INTEGER }

  predicate ValidWrite(value: string, nowMs: int, expiresAt: Option<int>) {
    && Utf8Length(value) <= MAX_DURABLE_METADATA_BYTES
    && SafeTime(nowMs)
    && (expiresAt.Some? ==> nowMs < expiresAt.value <= MAX_SAFE_INTEGER)
  }

  /** An invalid key or write throws before the map is touched. */
  datatype Outcome<+T> = Done(value: T) | Thrown

  class InMemoryDurableRecordStore {
    var records: map<string, Record<string>>

    constructor()
      ensures records == map[]
    {
      records := map[];
    }

    method Get(key: string) returns (r: Outcome<Option<Record<string>>>)
      ensures r == if !ValidKey(key) then Thrown
                   else Done(if key in records then Some(records[key]) else None)
    {
      if !ValidKey(key) { return Thrown; }
      if key in records { return Done(Some(records[key])); }
      return Done(None);
    }

    method CreateIfAbsent(key: string, value: string, nowMs: int, expiresAt: Option<int>)
      returns (r: Outcome<CreateResult<string>>)
      modifies this
      ensures !(ValidKey(key) && ValidWrite(value, nowMs, expiresAt)) ==> r == Thrown && records == old(records)
      ensures ValidKey(key) && ValidWrite(value, nowMs, expiresAt) ==>
                && records == Create(old(records), key, value, nowMs, expiresAt)
                && r == Done(if key in old(records) then Exists(old(records)[key]) else Created(records[key]))
    {
      if !ValidKey(key) || !ValidWrite(value, nowMs, expiresAt) { return Thrown; }
      if key in records { return Done(Exists(records[key])); }
      var record := Record(value, 1, nowMs, nowMs, expiresAt);
      records := records[key := record];
      return Done(Created(record));
    }

    method CompareAndSwap(key: string, expected: nat, value: string, nowMs: int, expiresAt: Option<int>)
      returns (r: Outcome<CasResult<string>>)
      modifies this
      ensures !(ValidKey(key) && ValidWrite(value, nowMs, expiresAt)) ==> r == Thrown && records == old(records)
      ensures ValidKey(key) && ValidWrite(value, nowMs, expiresAt) ==>
                && records == Cas(old(records), key, expected, value, nowMs, expiresAt)
                && r == Done(if key !in old(records) then Missing
                             else if old(records)[key].revision != expected then Conflict(old(records)[key])
                             else Updated(records[key]))
    {
      if !ValidKey(key) || !ValidWrite(value, nowMs, expiresAt) { return Thrown; }
      if key !in records { return Done(Missing); }
      var current := records[key];
      if current.revision != expected { return Done(Conflict(current)); }
      var record := current.(value := value, revision := current.revision + 1, updatedAt := nowMs,
          expiresAt := expiresAt);
      records := records[key := record];
      return Done(Updated(record));
    }

    method DeleteIfRevision(key: string, expected: nat) returns (r: Outcome<DeleteResult>)
      modifies this
      ensures !ValidKey(key) ==> r == Thrown && records == old(records)
      ensures ValidKey(key) ==>
                && records == Remove(old(records), key, expected)
                && r == Done(if key !in old(records) then DeleteMissing
                             else if old(records)[key].revision != expected then DeleteConflict
                             else Deleted)
    {
      if !ValidKey(key) { return Thrown; }
      if key !in records { return Done(DeleteMissing); }
      if records[key].revision != expected { return Done(DeleteConflict); }
      records := records - {key};
      return Done(Deleted);
    }
  }
}
