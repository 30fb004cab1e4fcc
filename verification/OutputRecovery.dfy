/** What one look at a reserved output answers, and what a recovery makes of its looks and
    reads (src/core/durable-document-output.ts:360-454), as functions of the states they
    were taken in. */
module OutputRecovery {
  import opened Basics
  import opened DurableStore
  import A = Artifacts
  import R = Reservations
  import D = ArtifactRepository
  import S = OutputStack

  type RefId = A.RefId
  type Caller = A.Caller

  predicate Revoked(w: R.World, ref: RefId) { ref in w.records && w.records[ref].value.revoked }

  predicate Tombstoned(s: S.Slot) { s.head.Some? && s.head.value.value.revoked }

  predicate Usable(m: A.Meta, now: int) { m.status == A.Active && m.verification == A.Verified && m.expiresAt > now }

  // ------------------------------------------------------------------ one look

  /** The moments of asking for an external source: the tombstone on both sides of the
      authority's answer, whether the caller had cancelled before each, and the clock the
      answer was held against. */
  datatype Asked = Asked(cancelled: bool, first: S.Slot, cancelledThen: bool, second: S.Slot, nowMs: int)

  /** `assertExternalSource`: a cancellation throws, None is unavailable. */
  function Vouched(at: Asked, answer: Option<(int, A.Digest)>): Try<Option<(int, A.Digest)>> {
    if at.cancelled then Threw
    else if Tombstoned(at.first) || answer.None? then Answered(None)
    else if at.cancelledThen then Threw
    else if Tombstoned(at.second) || answer.value.0 <= at.nowMs then Answered(None)
    else Answered(answer)
  }

  /** The moments of one look at an output: reservation, canonical record, external source,
      source record, and whether the caller had cancelled by each. */
  datatype Sighting = Sighting(
    cancelled: bool, reservation: R.World, output: S.Slot, cancelledAtOutput: bool, asked: Asked, source: S.Slot,
    cancelledAtSource: bool, nowMs: int)

  /** `activeOutput`: the canonical record; None is unavailable; anything else throws. */
  function LookAt(at: Sighting, ref: RefId, caller: Caller, authority: Option<(int, A.Digest)>)
    : Try<Option<Record<A.Meta>>>
  {
    if at.cancelled then Threw
    else if ref.OperationOutput? && Revoked(at.reservation, ref) then Answered(None)
    else
      var output := D.Fetched(at.output.artifacts, ref, caller);
      if output.Threw? || at.cancelledAtOutput then Threw
      else if output.value.None? || !output.value.value.value.details.Canonical? then Answered(None)
      else LookFurther(at, output.value.value, caller, authority)
  }

  function LookFurther(at: Sighting, output: Record<A.Meta>, caller: Caller, authority: Option<(int, A.Digest)>)
    : Try<Option<Record<A.Meta>>>
    requires output.value.details.Canonical?
  {
    var vouched := Vouched(at.asked, authority);
    if output.value.details.externalSourceRef.Some? && vouched.Threw? then Threw
    else if output.value.details.externalSourceRef.Some? && vouched.value.None? then Answered(None)
    else
      var source := D.Fetched(at.source.artifacts, output.value.details.sourceRefId, caller);
      if source.Threw? || at.cancelledAtSource then Threw
      else if source.value.None? || !Usable(output.value, at.nowMs) then Answered(None)
      else if !Usable(source.value.value.value, at.nowMs) then Answered(None)
      else if !source.value.value.value.details.Source? then Answered(None)
      else Answered(Some(output))
  }

  /** A look answers with a record if and only if everything it must see was there when it
      was looked at. */
  lemma LookSeesExactly(at: Sighting, ref: RefId, caller: Caller, authority: Option<(int, A.Digest)>,
          record: Record<A.Meta>)
    ensures LookAt(at, ref, caller, authority) == Answered(Some(record)) <==>
              && !at.cancelled && !at.cancelledAtOutput && !at.cancelledAtSource
              && !(ref.OperationOutput? && Revoked(at.reservation, ref))
              && D.Fetched(at.output.artifacts, ref, caller) == Answered(Some(record))
              && record.value.details.Canonical? && Usable(record.value, at.nowMs)
              && (record.value.details.externalSourceRef.Some? ==>
                    Vouched(at.asked, authority) == Answered(authority) != Answered(None))
              && IsUsableSource(at, record.value.details.sourceRefId, caller)
  {
  }

  predicate IsUsableSource(at: Sighting, sourceRef: RefId, caller: Caller) {
    var source := D.Fetched(at.source.artifacts, sourceRef, caller);
    && source.Answered? && source.value.Some? && Usable(source.value.value.value, at.nowMs)
    && source.value.value.value.details.Source?
  }

  predicate Undisturbed(s: S.Slot, s': S.Slot, ref: RefId) {
    A.Disturbances(s'.artifacts, ref) == A.Disturbances(s.artifacts, ref)
  }

  /** Over every run: once an output derived from an external source is stored, no look that
      asks for the source after its tombstone answers with that output, whatever moment its
      record is read at, unless the output is removed. */
  lemma TombstonedSourceHidesItsOutputs(before: seq<S.Event>, until: seq<S.Event>, between: seq<S.Event>,
          after: seq<S.Event>, at: Sighting, ref: RefId, caller: Caller, authority: Option<(int, A.Digest)>)
    requires var s := S.Execute(S.EMPTY, before);
             && ref in s.artifacts.records && s.artifacts.records[ref].value.details.Canonical?
             && s.artifacts.records[ref].value.details.externalSourceRef.Some?
    requires Tombstoned(S.Execute(S.Execute(S.EMPTY, before), between))
    requires at.output == S.Execute(S.Execute(S.EMPTY, before), until)
             && Undisturbed(S.Execute(S.EMPTY, before), at.output, ref)
    requires at.asked.second == S.Execute(S.Execute(S.Execute(S.EMPTY, before), between), after)
    ensures var look := LookAt(at, ref, caller, authority); look.Threw? || look.value.None?
  {
    hide S.Execute, S.SlotInv;
    EmptyStack();
    var s := S.Execute(S.EMPTY, before);
    S.RunKeepsInv(S.EMPTY, before);
    S.RunKeepsInv(s, until);
    S.RunKeepsInv(s, between);
    S.RunKeepsInv(S.Execute(s, between), after);
    StaysDerived(s, at.output, ref);
    assert Tombstoned(at.asked.second);
  }

  lemma EmptyStack()
    ensures S.SlotInv(S.EMPTY)
  {
  }

  lemma StaysDerived(s: S.Slot, s': S.Slot, ref: RefId)
    requires S.Grows(s, s') && ref in s.artifacts.records && Undisturbed(s, s', ref)
    ensures ref in s'.artifacts.records
    ensures s'.artifacts.records[ref].value.details == s.artifacts.records[ref].value.details
  {
  }

  // ------------------------------------------------------------------ one recovery

  /** What a recovery observes, in order. */
  datatype Observed =
    | Looked(look: Try<Option<Record<A.Meta>>>)
    | FetchedSource(source: Try<Option<Record<A.Meta>>>)
    | ReadOutput(outputBytes: Try<string>)
    | ReadSource(sourceBytes: Try<string>)

  /** Output and source were found and carry the reserved hashes. */
  predicate Matched(o: Observed, s: Observed, f: R.Fingerprint) {
    && o.Looked? && o.look.Answered? && o.look.value.Some? && o.look.value.value.value.contentHash == f.outputHash
    && s.FetchedSource? && s.source.Answered? && s.source.value.Some?
    && s.source.value.value.value.contentHash == f.sourceHash
  }

  /** Ready: both hashes matched, both were read back, and there was a second look, which
      may well have found the output unavailable. */
  predicate ReadyCourse(c: seq<Observed>, f: R.Fingerprint) {
    && |c| == 5 && Matched(c[0], c[1], f)
    && c[2].ReadOutput? && c[2].outputBytes.Answered? && c[3].ReadSource? && c[3].sourceBytes.Answered?
    && c[4].Looked? && c[4].look.Answered?
  }

  /** Not ready: the first look found the output unavailable, or a hash did not match. */
  predicate UnreadyCourse(c: seq<Observed>, f: R.Fingerprint) {
    || c == [Looked(Answered(None))]
    || (|c| == 2 && c[0].Looked? && c[0].look.Answered? && c[0].look.value.Some?
        && c[1].FetchedSource? && c[1].source.Answered? && !Matched(c[0], c[1], f))
  }

  /** It ended with an error other than that the output is unavailable. */
  predicate BrokenCourse(c: seq<Observed>) {
    && 1 <= |c| <= 5
    && match c[|c| - 1]
       case Looked(look) => look.Threw? && (|c| == 1 || |c| == 5)
       case FetchedSource(source) => source.Threw? && |c| == 2
       case ReadOutput(bytes) => bytes.Threw? && |c| == 3
       case ReadSource(bytes) => bytes.Threw? && |c| == 4
  }

  lemma FirstLookCourse(look: Try<Option<Record<A.Meta>>>, f: R.Fingerprint)
    ensures var c := [Looked(look)];
            && !ReadyCourse(c, f) && (UnreadyCourse(c, f) <==> look == Answered(None))
            && (BrokenCourse(c) <==> look.Threw?)
  {
  }

  lemma FetchedCourse(look: Try<Option<Record<A.Meta>>>, source: Try<Option<Record<A.Meta>>>, f: R.Fingerprint)
    requires look.Answered? && look.value.Some?
    ensures var c := [Looked(look), FetchedSource(source)];
            && !ReadyCourse(c, f) && (BrokenCourse(c) <==> source.Threw?)
            && (UnreadyCourse(c, f) <==>
                  source.Answered? && !(look.value.value.value.contentHash == f.outputHash && source.value.Some?
                                        && source.value.value.value.contentHash == f.sourceHash))
  {
  }

  /** How a course that matched goes on: output, source and a second look, each unless the one
      before threw. */
  lemma MatchedCourse(c: seq<Observed>, more: seq<Observed>, f: R.Fingerprint)
    requires |c| == 2 && Matched(c[0], c[1], f) && 1 <= |more| <= 3
    requires more[0].ReadOutput? && (|more| > 1 ==> more[0].outputBytes.Answered? && more[1].ReadSource?)
    requires |more| > 2 ==> more[1].sourceBytes.Answered? && more[2].Looked?
    ensures !UnreadyCourse(c + more, f)
    ensures ReadyCourse(c + more, f) <==> |more| == 3 && more[2].look.Answered?
    ensures BrokenCourse(c + more) <==>
              match |more|
              case 1 => more[0].outputBytes.Threw?
              case 2 => more[1].sourceBytes.Threw?
              case _ => more[2].look.Threw?
  {
  }

  // ------------------------------------------------------------------ ready although unavailable

  function SourceInput(caller: Caller, key: string): D.PutInput {
    D.PutInput(A.OperationSource(caller, key), caller, A.Hash("s"), 1000, A.Verified, A.Source("text/plain", "a.txt"))
  }

  function OutputInput(caller: Caller, key: string): D.PutInput {
    D.PutInput(A.OperationOutput(caller, key), caller, A.Hash("p"), 1000, A.Verified,
               A.Canonical(A.OperationSource(caller, key), "1", None))
  }

  /** Source and output are put, and later the output is deleted. */
  function Placed(caller: Caller, key: string): S.Slot {
    S.Execute(S.EMPTY, [S.Event(1, S.OnArtifact(A.Put(D.MetaOf(SourceInput(caller, key), 1, 10))), 10),
                        S.Event(1, S.OnArtifact(A.Put(D.MetaOf(OutputInput(caller, key), 1, 10))), 10)])
  }

  function Deleted(caller: Caller, key: string): S.Slot {
    var seen := A.Seen(D.MetaOf(OutputInput(caller, key), 1, 10), 1, 0);
    S.Execute(Placed(caller, key),
              [S.Event(2, S.OnArtifact(A.Rewrite(A.OperationOutput(caller, key), seen, A.DeleteIt)), 20)])
  }

  function AllAt(w: R.World, s: S.Slot, nowMs: int): Sighting {
    Sighting(false, w, s, false, Asked(false, s, false, s, nowMs), s, false, nowMs)
  }

  /** A recovery of a standing reservation that looks, reads both back, and looks again once
      the output has been deleted: the second look finds it unavailable and the recovery
      reports it ready. */
  lemma ReadyThoughUnavailable(caller: Caller, key: string, w: R.World)
    requires !Revoked(w, A.OperationOutput(caller, key))
    ensures var s, s' := Placed(caller, key), Deleted(caller, key);
            var ref, sourceRef := A.OperationOutput(caller, key), A.OperationSource(caller, key);
            var first := LookAt(AllAt(w, s, 15), ref, caller, None);
            var second := LookAt(AllAt(w, s', 25), ref, caller, None);
            var source := D.Fetched(s.artifacts, sourceRef, caller);
            var outputRead := D.Read(s.artifacts, s.artifacts, ref, caller, 15, 100, Some("p"));
            var sourceRead := D.Read(s.artifacts, s.artifacts, sourceRef, caller, 15, 100, Some("s"));
            var course := [Looked(first), FetchedSource(source), ReadOutput(outputRead), ReadSource(sourceRead),
                           Looked(second)];
            && second == Answered(None)
            && ReadyCourse(course, R.Fingerprint(A.Hash("s"), A.Hash("p"), "text/plain", "a.txt", None, None))
  {
    hide S.Execute;
    PlacedHolds(caller, key);
    DeletedHolds(caller, key);
    var s := Placed(caller, key);
    var course := [Looked(LookAt(AllAt(w, s, 15), A.OperationOutput(caller, key), caller, None)),
                   FetchedSource(D.Fetched(s.artifacts, A.OperationSource(caller, key), caller))];
    assert Matched(course[0], course[1], R.Fingerprint(A.Hash("s"), A.Hash("p"), "text/plain", "a.txt", None, None));
  }

  lemma OneEvent(s: S.Slot, e: S.Event)
    ensures S.Execute(s, [e]) == S.Perform(s, e)
  {
  }

  lemma TwoEvents(s: S.Slot, e: S.Event, f: S.Event)
    ensures S.Execute(s, [e, f]) == S.Perform(S.Perform(s, e), f)
  {
    hide S.Perform;
    assert [e, f][1..] == [f];
    OneEvent(S.Perform(s, e), f);
  }

  lemma PlacedHolds(caller: Caller, key: string)
    ensures var w := Placed(caller, key).artifacts;
            var output, source := D.MetaOf(OutputInput(caller, key), 1, 10), D.MetaOf(SourceInput(caller, key), 1, 10);
            && output.refId in w.records && w.records[output.refId] == Fresh(output, 10, Some(1000))
            && source.refId in w.records && w.records[source.refId] == Fresh(source, 10, Some(1000))
            && w.removed[output.refId] == 0 && A.IdentityOf(output) in w.puts
  {
    hide S.Execute;
    TwoEvents(S.EMPTY, S.Event(1, S.OnArtifact(A.Put(D.MetaOf(SourceInput(caller, key), 1, 10))), 10),
              S.Event(1, S.OnArtifact(A.Put(D.MetaOf(OutputInput(caller, key), 1, 10))), 10));
  }

  lemma DeletedHolds(caller: Caller, key: string)
    ensures var w := Deleted(caller, key).artifacts;
            var ref := A.OperationOutput(caller, key);
            && ref in w.records && A.Decodes(w.records[ref]) && w.records[ref].value.owner == caller
            && w.records[ref].value.status == A.LogicallyDeleted
            && w.records[ref].value.details == OutputInput(caller, key).details
            && A.OperationSource(caller, key) in w.records
            && w.records[A.OperationSource(caller, key)] ==
                 Fresh(D.MetaOf(SourceInput(caller, key), 1, 10), 10, Some(1000))
  {
    hide S.Execute;
    PlacedHolds(caller, key);
    var seen := A.Seen(D.MetaOf(OutputInput(caller, key), 1, 10), 1, 0);
    OneEvent(Placed(caller, key),
             S.Event(2, S.OnArtifact(A.Rewrite(A.OperationOutput(caller, key), seen, A.DeleteIt)), 20));
  }
}
