/** The lock-free stack of outputs derived from one external source
    (src/core/durable-artifacts.ts:318-389): a head record with a tombstone flag, one
    edge record per registration, pushes and acknowledgements by compare-and-swap on the
    head, in the store that also holds the artifact records. Edge names are random,
    modelled as never used before. */
module OutputStack {
  import opened DurableStore
  import A = Artifacts

  type RefId = A.RefId
  type Pid = nat
  type EdgeId = nat

  datatype Head = Head(revoked: bool, edge: Option<EdgeId>)
  datatype Edge = Edge(outputRefId: RefId, next: Option<EdgeId>)

  /** The head, the edges and the artifact records of the same store, and the history:
      what every edge ever made was for and who made it, which were pushed, which were
      popped, the stack top first, and for which pushed edges the output has since been
      seen to be gone. */
  datatype Slot = Slot(
    head: Option<Record<Head>>, edges: map<EdgeId, Edge>, artifacts: A.World,
    made: map<EdgeId, RefId>, maker: map<EdgeId, Pid>, registered: set<EdgeId>, acknowledged: set<EdgeId>,
    stack: seq<EdgeId>, gone: set<EdgeId>)

  const EMPTY := Slot(None, map[], A.EMPTY, map[], map[], {}, {}, [], {})

  datatype Action =
    | CreateHead(revoked: bool)
    | MakeEdge(edge: EdgeId, outputRefId: RefId, next: Option<EdgeId>)
    | Push(edge: EdgeId)
    | DropEdge(edge: EdgeId)
    | Revoke
    | Acknowledge(edge: EdgeId)
    | DropAcknowledged(edge: EdgeId)
    | OnArtifact(change: A.Action)   // a step on the artifact records
    | NoteGone(edge: EdgeId)         // the output of this edge is absent now

  predicate Enabled(p: Pid, s: Slot, a: Action, nowMs: int) {
    match a
    case CreateHead(_) => s.head.None?
    case MakeEdge(e, _, _) => e !in s.made
    case Push(e) =>
      && s.head.Some? && !s.head.value.value.revoked
      && e in s.edges && e in s.maker && s.maker[e] == p && e !in s.registered
      && s.edges[e].next == s.head.value.value.edge
    case DropEdge(e) => e in s.edges && e in s.maker && s.maker[e] == p && e !in s.registered
    case Revoke => s.head.Some? && !s.head.value.value.revoked
    case Acknowledge(e) =>
      s.head.Some? && s.head.value.value == Head(true, Some(e)) && e in s.edges && e in s.gone
    case DropAcknowledged(e) => e in s.acknowledged && e in s.edges
    case OnArtifact(change) => A.Enabled(s.artifacts, change, nowMs)
    case NoteGone(e) => e in s.registered && e in s.made && s.made[e] !in s.artifacts.records
  }

  function Swap(s: Slot, h: Head, nowMs: int): Option<Record<Head>>
    requires s.head.Some?
  {
    Some(Bump(s.head.value, h, nowMs, None))
  }

  function Next(p: Pid, s: Slot, a: Action, nowMs: int): Slot
    requires Enabled(p, s, a, nowMs)
  {
    match a
    case CreateHead(revoked) => s.(head := Some(Fresh(Head(revoked, None), nowMs, None)))
    case MakeEdge(e, output, next) =>
      s.(edges := s.edges[e := Edge(output, next)], made := s.made[e := output], maker := s.maker[e := p])
    case Push(e) => s.(head := Swap(s, Head(false, Some(e)), nowMs), registered := s.registered + {e},
                       stack := [e] + s.stack)
    case DropEdge(e) => s.(edges := s.edges - {e})
    case Revoke => s.(head := Swap(s, s.head.value.value.(revoked := true), nowMs))
    case Acknowledge(e) =>
      s.(head := Swap(s, Head(true, s.edges[e].next), nowMs), acknowledged := s.acknowledged + {e},
         stack := if s.stack == [] then [] else s.stack[1..])
    case DropAcknowledged(e) => s.(edges := s.edges - {e})
    case OnArtifact(change) => s.(artifacts := A.Next(s.artifacts, change, nowMs))
    case NoteGone(e) => s.(gone := s.gone + {e})
  }

  // ------------------------------------------------------------------ invariant

  function Top(s: Slot): Option<EdgeId> { if s.head.None? then None else s.head.value.value.edge }

  predicate Chain(edges: map<EdgeId, Edge>, from: Option<EdgeId>, stack: seq<EdgeId>)
    decreases |stack|
  {
    if stack == [] then from == None
    else from == Some(stack[0]) && stack[0] in edges && Chain(edges, edges[stack[0]].next, stack[1..])
  }

  predicate Distinct(s: seq<EdgeId>) { forall i, j | 0 <= i < j < |s| :: s[i] != s[j] }

  ghost predicate SlotInv(s: Slot) {
    && (s.head.None? ==> s.stack == [] && s.registered == {} && s.acknowledged == {})
    && (s.head.Some? ==> s.head.value.revision >= 1)
    && (s.acknowledged != {} ==> s.head.Some? && s.head.value.value.revoked)
    && Chain(s.edges, Top(s), s.stack) && Distinct(s.stack)
    && (forall e | e in s.stack :: e in s.registered && e !in s.acknowledged)
    && (forall e | e in s.registered :: e in s.made && (e in s.stack || e in s.acknowledged))
    && (forall e | e in s.acknowledged :: e in s.registered && e in s.gone)
    && (forall e | e in s.gone :: e in s.registered)
    && (forall e | e in s.edges :: e in s.made && s.edges[e].outputRefId == s.made[e])
    && s.maker.Keys == s.made.Keys
    && A.WorldInv(s.artifacts)
  }

  lemma {:induction false} ChainFrame(edges: map<EdgeId, Edge>, edges': map<EdgeId, Edge>, from: Option<EdgeId>,
          stack: seq<EdgeId>)
    requires Chain(edges, from, stack) && forall e | e in stack :: e in edges ==> e in edges' && edges'[e] == edges[e]
    ensures Chain(edges', from, stack)
    decreases |stack|
  {
    if stack != [] { ChainFrame(edges, edges', edges[stack[0]].next, stack[1..]); }
  }

  lemma {:induction false} ChainInEdges(edges: map<EdgeId, Edge>, from: Option<EdgeId>, stack: seq<EdgeId>)
    requires Chain(edges, from, stack)
    ensures forall e | e in stack :: e in edges
    decreases |stack|
  {
    if stack != [] {
      ChainInEdges(edges, edges[stack[0]].next, stack[1..]);
      forall e | e in stack ensures e in edges { assert e == stack[0] || e in stack[1..]; }
    }
  }

  lemma StepKeepsSlotInv(p: Pid, s: Slot, a: Action, nowMs: int)
    requires SlotInv(s) && Enabled(p, s, a, nowMs)
    ensures SlotInv(Next(p, s, a, nowMs))
  {
    if a.OnArtifact? {
      A.StepKeepsInv(s.artifacts, a.change, nowMs);
    } else if a.Push? || a.Acknowledge? {
      SwapKeepsSlotInv(p, s, a, nowMs);
    } else {
      EdgeStepKeepsSlotInv(p, s, a, nowMs);
    }
  }

  lemma SwapKeepsSlotInv(p: Pid, s: Slot, a: Action, nowMs: int)
    requires SlotInv(s) && Enabled(p, s, a, nowMs) && (a.Push? || a.Acknowledge?)
    ensures SlotInv(Next(p, s, a, nowMs))
  {
    hide A.WorldInv;
    var s' := Next(p, s, a, nowMs);
    ChainInEdges(s.edges, Top(s), s.stack);
    if a.Push? {
      assert a.edge !in s.stack;
      assert s'.stack[1..] == s.stack;
    } else {
      assert s.stack != [] && s.stack[0] == a.edge;
      assert a.edge !in s.stack[1..];
      forall x | x in s'.registered ensures x in s'.stack || x in s'.acknowledged {
        if x in s.stack { assert x == a.edge || x in s.stack[1..]; }
      }
    }
  }

  lemma EdgeStepKeepsSlotInv(p: Pid, s: Slot, a: Action, nowMs: int)
    requires SlotInv(s) && Enabled(p, s, a, nowMs) && !a.Push? && !a.Acknowledge? && !a.OnArtifact?
    ensures SlotInv(Next(p, s, a, nowMs))
  {
    hide A.WorldInv;
    var s' := Next(p, s, a, nowMs);
    ChainInEdges(s.edges, Top(s), s.stack);
    if a.DropEdge? || a.DropAcknowledged? { assert a.edge !in s.stack; }
    ChainFrame(s.edges, s'.edges, Top(s), s.stack);
  }

  // ------------------------------------------------------------------ what never changes back

  ghost predicate Grows(s: Slot, s': Slot) {
    && s.artifacts.puts <= s'.artifacts.puts && s.registered <= s'.registered
    && (forall e | e in s.made :: e in s'.made && s'.made[e] == s.made[e])
    && Evolves(s, s')
  }

  ghost predicate Evolves(s: Slot, s': Slot) {
    && (s.head.Some? ==>
          && s'.head.Some? && s.head.value.revision <= s'.head.value.revision
          && (s.head.value.revision == s'.head.value.revision ==> s'.head == s.head)
          && (s.head.value.value.revoked ==> s'.head.value.value.revoked && s'.registered == s.registered))
    && s.acknowledged <= s'.acknowledged && s.gone <= s'.gone
    && (forall e | e in s.made :: e in s'.maker && e in s.maker && s'.maker[e] == s.maker[e])
    && (forall e | e in s.made && e in s'.edges :: e in s.edges && s'.edges[e] == s.edges[e])
    && A.Grows(s.artifacts, s'.artifacts)
  }

  /** What worker `me` may rely on: an edge of mine that is not pushed stays as it is. */
  ghost predicate SlotRely(me: Pid, s: Slot, s': Slot) {
    && Grows(s, s')
    && forall e | e in s.edges && e in s.maker && s.maker[e] == me && e !in s.registered :: e in s'.edges
            && e !in s'.registered
  }

  lemma StepGrows(p: Pid, s: Slot, a: Action, nowMs: int)
    requires SlotInv(s) && Enabled(p, s, a, nowMs)
    ensures Grows(s, Next(p, s, a, nowMs))
  {
    if a.OnArtifact? {
      A.StepKeepsInv(s.artifacts, a.change, nowMs);
    } else {
      A.GrowsReflexive(s.artifacts);
      EdgesGrow(p, s, a, nowMs);
    }
  }

  lemma EdgesGrow(p: Pid, s: Slot, a: Action, nowMs: int)
    requires SlotInv(s) && Enabled(p, s, a, nowMs) && !a.OnArtifact? && A.Grows(s.artifacts, s.artifacts)
    ensures Grows(s, Next(p, s, a, nowMs))
  {
    hide A.Grows, A.WorldInv, Chain, Distinct;
  }

  lemma OthersStepIsRely(me: Pid, p: Pid, s: Slot, a: Action, nowMs: int)
    requires p != me && SlotInv(s) && Enabled(p, s, a, nowMs)
    ensures SlotRely(me, s, Next(p, s, a, nowMs))
  {
    StepGrows(p, s, a, nowMs);
  }

  lemma GrowsTransitive(a: Slot, b: Slot, c: Slot)
    requires SlotInv(a) && SlotInv(b) && Grows(a, b) && Grows(b, c)
    ensures Grows(a, c)
  {
    A.GrowsTransitive(a.artifacts, b.artifacts, c.artifacts);
    hide A.Grows, A.WorldInv, Chain;
  }

  lemma GrowsReflexive(s: Slot)
    requires SlotInv(s)
    ensures Grows(s, s)
  {
    A.GrowsReflexive(s.artifacts);
  }

  lemma SlotRelyReflexive(me: Pid, s: Slot)
    requires SlotInv(s)
    ensures SlotRely(me, s, s)
  {
    GrowsReflexive(s);
  }

  lemma SlotRelyTransitive(me: Pid, a: Slot, b: Slot, c: Slot)
    requires SlotInv(a) && SlotInv(b) && SlotRely(me, a, b) && SlotRely(me, b, c)
    ensures SlotRely(me, a, c)
  {
    GrowsTransitive(a, b, c);
  }

  // ------------------------------------------------------------------ whole runs

  datatype Event = Event(pid: Pid, action: Action, nowMs: int)

  function Perform(s: Slot, e: Event): Slot {
    if Enabled(e.pid, s, e.action, e.nowMs) then Next(e.pid, s, e.action, e.nowMs) else s
  }

  function Execute(s: Slot, schedule: seq<Event>): Slot
    decreases |schedule|
  {
    if schedule == [] then s else Execute(Perform(s, schedule[0]), schedule[1..])
  }

  lemma {:induction false} RunKeepsInv(s: Slot, schedule: seq<Event>)
    requires SlotInv(s)
    ensures SlotInv(Execute(s, schedule)) && Grows(s, Execute(s, schedule))
    decreases |schedule|
  {
    hide Enabled, Next, SlotInv, Grows;
    GrowsReflexive(s);
    if schedule != [] {
      var e := schedule[0];
      if Enabled(e.pid, s, e.action, e.nowMs) {
        StepKeepsSlotInv(e.pid, s, e.action, e.nowMs);
        StepGrows(e.pid, s, e.action, e.nowMs);
      }
      RunKeepsInv(Perform(s, e), schedule[1..]);
      GrowsTransitive(s, Perform(s, e), Execute(s, schedule));
    }
  }

  lemma {:induction false} OthersRunIsRely(me: Pid, s: Slot, schedule: seq<Event>)
    requires SlotInv(s) && forall i | 0 <= i < |schedule| :: schedule[i].pid != me
    ensures SlotInv(Execute(s, schedule)) && SlotRely(me, s, Execute(s, schedule))
    decreases |schedule|
  {
    hide Enabled, Next, SlotInv, SlotRely;
    SlotRelyReflexive(me, s);
    if schedule != [] {
      var e := schedule[0];
      if Enabled(e.pid, s, e.action, e.nowMs) {
        StepKeepsSlotInv(e.pid, s, e.action, e.nowMs);
        OthersStepIsRely(me, e.pid, s, e.action, e.nowMs);
      }
      OthersRunIsRely(me, Perform(s, e), schedule[1..]);
      SlotRelyTransitive(me, s, Perform(s, e), Execute(s, schedule));
    }
  }

  /** Following pointers from the head through the stored edges, at most `fuel` of them;
      None when a pointer leads nowhere or the fuel runs out. */
  function Walk(edges: map<EdgeId, Edge>, from: Option<EdgeId>, fuel: nat): Option<seq<EdgeId>>
    decreases fuel
  {
    if from == None then Some([])
    else if fuel == 0 || from.value !in edges then None
    else
      var rest := Walk(edges, edges[from.value].next, fuel - 1);
      if rest.None? then None else Some([from.value] + rest.value)
  }

  lemma {:induction false} WalkIsChain(edges: map<EdgeId, Edge>, from: Option<EdgeId>, stack: seq<EdgeId>, fuel: nat)
    requires Chain(edges, from, stack) && fuel >= |stack|
    ensures Walk(edges, from, fuel) == Some(stack)
    decreases |stack|
  {
    if stack != [] {
      WalkIsChain(edges, edges[stack[0]].next, stack[1..], fuel - 1);
      assert [stack[0]] + stack[1..] == stack;
    }
  }

  lemma {:induction false} DistinctFits(stack: seq<EdgeId>, all: set<EdgeId>)
    requires Distinct(stack) && forall e | e in stack :: e in all
    ensures |stack| <= |all|
    decreases |stack|
  {
    if stack != [] {
      assert stack[0] in all && stack[0] !in stack[1..];
      forall e | e in stack[1..] ensures e in all - {stack[0]} { assert e in stack; }
      assert forall i | 0 <= i < |stack| - 1 :: stack[1..][i] == stack[i + 1];
      DistinctFits(stack[1..], all - {stack[0]});
    }
  }

  /** Conservation: in every run the stored pointers form a finite list without repeats,
      and every registration is either on that list or acknowledged, never both. */
  lemma RegisteredIsReachableOrAcknowledged(schedule: seq<Event>)
    ensures var s := Execute(EMPTY, schedule);
            var reached := Walk(s.edges, Top(s), |s.registered|);
            && reached.Some? && Distinct(reached.value)
            && (forall e :: e in s.registered <==> e in reached.value || e in s.acknowledged)
            && (forall e | e in reached.value ::
                  e !in s.acknowledged && e in s.edges && e in s.made && s.edges[e].outputRefId == s.made[e])
  {
    RunKeepsInv(EMPTY, schedule);
    var s := Execute(EMPTY, schedule);
    DistinctFits(s.stack, s.registered);
    WalkIsChain(s.edges, Top(s), s.stack, |s.registered|);
    ChainInEdges(s.edges, Top(s), s.stack);
  }

  /** No registration succeeds once the tombstone is down, and the tombstone stays. */
  lemma NoRegistrationAfterTombstone(before: seq<Event>, after: seq<Event>)
    requires var s := Execute(EMPTY, before); s.head.Some? && s.head.value.value.revoked
    ensures var s, s' := Execute(EMPTY, before), Execute(Execute(EMPTY, before), after);
            s'.head.Some? && s'.head.value.value.revoked && s'.registered == s.registered
  {
    RunKeepsInv(EMPTY, before);
    RunKeepsInv(Execute(EMPTY, before), after);
  }

  // ------------------------------------------------------------------ what was registered was deleted

  /** A moment of the run, after this registration, at which its output was not there. */
  ghost predicate AbsentAfterRegistration(schedule: seq<Event>, e: EdgeId) {
    exists k | 0 <= k <= |schedule| :: AbsentAt(schedule, e, k)
  }

  predicate AbsentAt(schedule: seq<Event>, e: EdgeId, k: nat)
    requires k <= |schedule|
  {
    var s := Execute(EMPTY, schedule[..k]);
    e in s.registered && e in s.made && s.made[e] !in s.artifacts.records
  }

  lemma {:induction false} ExecuteLast(s: Slot, schedule: seq<Event>)
    requires schedule != []
    ensures Execute(s, schedule) == Perform(Execute(s, schedule[..|schedule| - 1]), schedule[|schedule| - 1])
    decreases |schedule|
  {
    hide Perform;
    if |schedule| > 1 {
      ExecuteLast(Perform(s, schedule[0]), schedule[1..]);
      assert schedule[1..][..|schedule| - 2] == schedule[..|schedule| - 1][1..];
    }
  }

  /** The note that an output is gone is only ever made at such a moment. */
  lemma {:induction false} GoneWasAbsent(schedule: seq<Event>, e: EdgeId)
    requires e in Execute(EMPTY, schedule).gone
    ensures AbsentAfterRegistration(schedule, e)
    decreases |schedule|
  {
    hide Execute, Perform;
    if schedule == [] {
      NothingGoneAtFirst();
    } else {
      var prior := schedule[..|schedule| - 1];
      ExecuteLast(EMPTY, schedule);
      if e in Execute(EMPTY, prior).gone {
        GoneWasAbsent(prior, e);
        var k :| 0 <= k <= |prior| && AbsentAt(prior, e, k);
        assert prior[..k] == schedule[..k];
        assert AbsentAt(schedule, e, k);
      } else {
        StepNotesAbsence(Execute(EMPTY, prior), schedule[|schedule| - 1], e);
        assert AbsentAt(schedule, e, |schedule| - 1);
      }
    }
  }

  lemma NothingGoneAtFirst()
    ensures Execute(EMPTY, []).gone == {}
  {
  }

  lemma StepNotesAbsence(s: Slot, ev: Event, e: EdgeId)
    requires e !in s.gone && e in Perform(s, ev).gone
    ensures e in s.registered && e in s.made && s.made[e] !in s.artifacts.records
  {
    hide A.Enabled, A.Next;
  }

  /** An acknowledged output was absent at some moment after it was registered. */
  lemma AcknowledgedWasDeleted(schedule: seq<Event>, e: EdgeId)
    requires e in Execute(EMPTY, schedule).acknowledged
    ensures AbsentAfterRegistration(schedule, e)
  {
    RunKeepsInv(EMPTY, schedule);
    GoneWasAbsent(schedule, e);
  }

  /** Completeness: once a tombstoned source has an empty list, every output that is ever
      registered for it, before or since, was absent at some moment of the run up to then
      and after its registration. */
  lemma EmptyTombstoneMeansAllDeleted(before: seq<Event>, after: seq<Event>, e: EdgeId)
    requires var s := Execute(EMPTY, before); s.head.Some? && s.head.value.value == Head(true, None)
    requires e in Execute(Execute(EMPTY, before), after).registered
    ensures AbsentAfterRegistration(before, e)
  {
    RunKeepsInv(EMPTY, before);
    RunKeepsInv(Execute(EMPTY, before), after);
    assert Execute(EMPTY, before).stack == [];
    AcknowledgedWasDeleted(before, e);
  }

  // ------------------------------------------------------------------ facts the repository uses

  lemma NeverMade(s: Slot, s': Slot, e: EdgeId)
    requires SlotInv(s) && SlotInv(s') && Grows(s, s') && e !in s'.made
    ensures e !in s.made && e !in s.registered && e !in s'.registered
  {
  }

  lemma TopIsStored(s: Slot)
    requires SlotInv(s) && Top(s).Some?
    ensures Top(s).value in s.edges && Top(s).value in s.registered && Top(s).value in s.made
    ensures s.edges[Top(s).value].outputRefId == s.made[Top(s).value]
  {
  }

  lemma MadeStays(s: Slot, s': Slot, e: EdgeId)
    requires Grows(s, s') && e in s.made
    ensures e in s'.made && s'.made[e] == s.made[e]
    ensures e in s.registered ==> e in s'.registered
    ensures e in s.gone ==> e in s'.gone
  {
  }
}
