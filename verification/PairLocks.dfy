/** Puts and fetches over the two-level link map itself: a thread inside the table page's lock goes through the map's
    mutex and the page entry's mutex to reach the link. Every schedule is one of the machine whose link map is atomic,
    and no schedule gets stuck. */
module PairLocks {
  import opened Wrappers
  import opened Histories
  import V = VersionLinks
  import L = Linearizability
  import opened TuplePairs

  /** A thread stands at `pc` of its call, or is from there inside a call to the link map. */
  datatype Stage = At(pc: PairPc) | Linking(pc: PairPc)

  datatype LockWorld = LockWorld(stages: seq<Stage>, heap: map<V.Rid, Tuple>, inner: V.World,
                                 nextId: nat, events: seq<PairEvent>, log: seq<PairEntry>)

  /** Steps outside the link map, the call to it, and steps inside it. */
  datatype LockStep = Outer(step: PairStep) | CallLink(t: nat) | Inner(link: V.Step)

  function ThreadOf(s: LockStep): nat {
    match s
    case Outer(step) => step.t
    case CallLink(t) => t
    case Inner(link) => link.t
  }

  predicate CallsLink(pc: PairPc) {
    pc.Wrote? || pc.Got?
  }

  /** The outcome of a call to the link map that has been decided. */
  function Decided(pc: V.Pc): Option<V.Outcome> {
    match pc
    case Missed(_) => Some(V.Read(None))
    case Finished(_, _, res) => Some(res)
    case _ => None
  }

  function ResultOf(pc: PairPc, link: V.Outcome): PairResult {
    match pc
    case Got(_, tuple) => Pair(tuple, if link.Read? then link.link else None)
    case _ => Stored(true)
  }

  /** The world without its link map. */
  function Base(w: LockWorld): PairWorld {
    PairWorld(seq(|w.stages|, t requires 0 <= t < |w.stages| => w.stages[t].pc), w.heap, map[],
              w.nextId, w.events, w.log)
  }

  ghost predicate LockEnabled(w: LockWorld, s: LockStep) {
    ThreadOf(s) < |w.stages| &&
    var stage := w.stages[ThreadOf(s)];
    match s
    case Outer(step) => stage.At? && !step.WriteLink? && !step.ReadLink? && PairEnabled(Base(w), step)
    case CallLink(t) => stage.At? && CallsLink(stage.pc) && V.Enabled(w.inner, V.Step.Invoke(t, LinkOp(stage.pc.c.op)))
    case Inner(link) => stage.Linking? && CallsLink(stage.pc) && !link.Invoke? && V.Enabled(w.inner, link)
  }

  ghost function LockDo(w: LockWorld, s: LockStep): LockWorld
    requires LockEnabled(w, s)
  {
    var t := ThreadOf(s);
    var pc := w.stages[t].pc;
    match s
    case Outer(step) =>
      var b := PairDo(Base(w), step);
      LockWorld(w.stages[t := At(b.threads[t])], b.heap, w.inner, b.nextId, b.events, b.log)
    case CallLink(_) =>
      w.(stages := w.stages[t := Linking(pc)], inner := V.Do(w.inner, V.Step.Invoke(t, LinkOp(pc.c.op))))
    case Inner(link) =>
      var inner := V.Do(w.inner, link);
      var w' := w.(inner := inner);
      if link.Return? then w'.(stages := w.stages[t := At(Ended(pc.c, Closing(w, t)))])
      else if |inner.log| > |w.inner.log| then
        w'.(log := w.log + [Entry(pc.c.id, pc.c.op, ResultOf(pc, inner.log[|w.inner.log|].res))])
      else w'
  }

  /** What a thread inside the link map will return once that call is decided. */
  function Closing(w: LockWorld, t: nat): PairResult
    requires t < |w.stages|
  {
    var res := if t < |w.inner.threads| then Decided(w.inner.threads[t]) else None;
    ResultOf(w.stages[t].pc, if res.Some? then res.value else V.Done(true))
  }

  function LockStart(n: nat, heap: map<V.Rid, Tuple>): LockWorld {
    LockWorld(seq(n, _ => At(PairPc.Idle)), heap, V.Init(n), 0, [], [])
  }

  ghost function LockExec(n: nat, heap: map<V.Rid, Tuple>, steps: seq<LockStep>): Option<LockWorld> {
    if steps == [] then Some(LockStart(n, heap))
    else
      var w := LockExec(n, heap, steps[..|steps| - 1]);
      if w.Some? && LockEnabled(w.value, steps[|steps| - 1]) then Some(LockDo(w.value, steps[|steps| - 1])) else None
  }

  // ----- The atomic machine behind it -----

  /** Seen from outside, a put or fetch has ended once its call to the link map is decided. */
  function SeenPc(stage: Stage, inner: V.Pc): PairPc {
    if stage.Linking? && CallsLink(stage.pc) && Decided(inner).Some?
    then Ended(stage.pc.c, ResultOf(stage.pc, Decided(inner).value)) else stage.pc
  }

  function Seen(w: LockWorld): PairWorld
    requires |w.stages| == |w.inner.threads|
  {
    PairWorld(seq(|w.stages|, t requires 0 <= t < |w.stages| => SeenPc(w.stages[t], w.inner.threads[t])),
              w.heap, V.Replay(w.inner.log), w.nextId, w.events, w.log)
  }

  /** A thread is in a call to the link map exactly while it is linking, and the call is that of its operation. */
  ghost predicate Coupled(stage: Stage, inner: V.Pc) {
    && (stage.At? ==> inner.Idle?)
    && (stage.Linking? ==> CallsLink(stage.pc) && !inner.Idle? && inner.c.op == LinkOp(stage.pc.c.op))
    && (stage.pc.Wrote? || stage.pc.Checked? ==> stage.pc.c.op.Put?)
    && (stage.pc.Got? ==> stage.pc.c.op.Fetch?)
  }

  ghost predicate AllCoupled(w: LockWorld) {
    |w.stages| == |w.inner.threads| &&
    forall t :: 0 <= t < |w.stages| ==> Coupled(w.stages[t], w.inner.threads[t])
  }

  lemma InnerMovesOne(w: V.World, s: V.Step)
    requires V.Enabled(w, s)
    ensures V.Do(w, s).threads == w.threads[s.t := V.Do(w, s).threads[s.t]]
  {
  }

  /** Inside the link map a call keeps its operation until it returns. */
  lemma InnerKeepsCall(w: V.World, s: V.Step)
    requires V.Enabled(w, s) && !s.Invoke?
    ensures var pc, pc' := w.threads[s.t], V.Do(w, s).threads[s.t];
            && !pc.Idle? && (s.Return? <==> pc'.Idle?) && (!s.Return? ==> pc'.c == pc.c)
            && (Decided(pc).Some? <==> s.Return?)
            && (Decided(pc').Some? <==> L.Committed(w, s).Some?)
            && (L.Committed(w, s).Some? ==> Decided(pc') == Some(L.Committed(w, s).value.res))
            && (L.Committed(w, s).Some? ==> L.Committed(w, s).value.op == pc.c.op)
  {
  }

  lemma CoupledStep(w: LockWorld, s: LockStep)
    requires AllCoupled(w) && LockEnabled(w, s)
    ensures AllCoupled(LockDo(w, s))
  {
    var t := ThreadOf(s);
    assert Coupled(w.stages[t], w.inner.threads[t]);
    if s.CallLink? {
      InnerMovesOne(w.inner, V.Step.Invoke(t, LinkOp(w.stages[t].pc.c.op)));
    } else if s.Inner? {
      InnerMovesOne(w.inner, s.link);
      InnerKeepsCall(w.inner, s.link);
    }
  }

  lemma LockStepInner(w: LockWorld, s: LockStep)
    requires L.Faithful(w.inner) && LockEnabled(w, s)
    ensures L.Faithful(LockDo(w, s).inner)
  {
    if s.CallLink? {
      L.FaithfulStep(w.inner, V.Step.Invoke(s.t, LinkOp(w.stages[s.t].pc.c.op)));
    } else if s.Inner? {
      L.FaithfulStep(w.inner, s.link);
    }
  }

  /** The step of the atomic machine that a step shows, if any. */
  function Shown(w: LockWorld, s: LockStep): Option<PairStep>
    requires s.Inner? ==> V.Enabled(w.inner, s.link)
    requires ThreadOf(s) < |w.stages|
  {
    match s
    case Outer(step) => Some(step)
    case CallLink(_) => None
    case Inner(link) =>
      if L.Committed(w.inner, link).None? then None
      else if w.stages[link.t].pc.Wrote? then Some(WriteLink(link.t)) else Some(ReadLink(link.t))
  }

  /** For the page's lock it is all the same whether a thread is inside the link map. */
  lemma SeenEnabled(w: LockWorld, step: PairStep)
    requires AllCoupled(w) && LockEnabled(w, Outer(step))
    ensures PairEnabled(Seen(w), step)
  {
    var t := step.t;
    assert Base(w).threads[t] == w.stages[t].pc == Seen(w).threads[t];
    if step.Lock? {
      forall u | 0 <= u < |w.stages| && u != t ensures MayShare(Locked(w.stages[t].pc.c), Seen(w).threads[u]) {
        assert MayShare(Locked(w.stages[t].pc.c), Base(w).threads[u]);
        assert Coupled(w.stages[u], w.inner.threads[u]);
      }
    }
  }

  /** A step outside the link map depends on the thread and the heap, not on the links or on other threads. */
  lemma OuterAlike(a: PairWorld, b: PairWorld, step: PairStep)
    requires PairEnabled(a, step) && PairEnabled(b, step) && !step.WriteLink? && !step.ReadLink?
    requires a.threads[step.t] == b.threads[step.t] && a.heap == b.heap
    requires a.nextId == b.nextId && a.events == b.events && a.log == b.log
    ensures var a', b' := PairDo(a, step), PairDo(b, step);
            a' == PairWorld(a.threads[step.t := b'.threads[step.t]], b'.heap, a.links, b'.nextId, b'.events, b'.log)
  {
  }

  lemma OuterShown(w: LockWorld, step: PairStep)
    requires AllCoupled(w) && LockEnabled(w, Outer(step))
    ensures PairEnabled(Seen(w), step) && AllCoupled(LockDo(w, Outer(step)))
    ensures Seen(LockDo(w, Outer(step))) == PairDo(Seen(w), step)
  {
    SeenEnabled(w, step);
    CoupledStep(w, Outer(step));
    OuterAlike(Seen(w), Base(w), step);
    var w' := LockDo(w, Outer(step));
    assert Seen(w').threads == Seen(w).threads[step.t := w'.stages[step.t].pc];
  }

  lemma CallShown(w: LockWorld, t: nat)
    requires AllCoupled(w) && LockEnabled(w, CallLink(t))
    ensures AllCoupled(LockDo(w, CallLink(t))) && Seen(LockDo(w, CallLink(t))) == Seen(w)
  {
    CoupledStep(w, CallLink(t));
    InnerMovesOne(w.inner, V.Step.Invoke(t, LinkOp(w.stages[t].pc.c.op)));
    assert Seen(LockDo(w, CallLink(t))).threads == Seen(w).threads;
  }

  lemma QuietShown(w: LockWorld, link: V.Step)
    requires AllCoupled(w) && LockEnabled(w, Inner(link)) && L.Committed(w.inner, link).None?
    ensures AllCoupled(LockDo(w, Inner(link))) && Seen(LockDo(w, Inner(link))) == Seen(w)
  {
    var w', t := LockDo(w, Inner(link)), link.t;
    CoupledStep(w, Inner(link));
    InnerMovesOne(w.inner, link);
    InnerKeepsCall(w.inner, link);
    assert w'.inner.log == w.inner.log;
    assert SeenPc(w'.stages[t], w'.inner.threads[t]) == SeenPc(w.stages[t], w.inner.threads[t]);
    assert Seen(w').threads == Seen(w).threads;
  }

  /** The deciding step inside the link map has the outcome and the effect of the operation on the flat map. */
  lemma DecisionIsAtomic(w: LockWorld, link: V.Step)
    requires AllCoupled(w) && L.Faithful(w.inner) && LockEnabled(w, Inner(link)) && L.Committed(w.inner, link).Some?
    ensures var op, links := LinkOp(w.stages[link.t].pc.c.op), V.Replay(w.inner.log);
            var e := L.Committed(w.inner, link).value;
            && e.res == V.AtomicResult(links, op)
            && V.Replay(V.Do(w.inner, link).log) == V.AtomicEffect(links, op)
            && Decided(V.Do(w.inner, link).threads[link.t]) == Some(e.res)
            && Decided(w.inner.threads[link.t]).None? && !link.Return?
  {
    InnerKeepsCall(w.inner, link);
    L.CommitStep(w.inner, link, V.Rid(0, 0));
    L.ReplayAppend(w.inner.log, L.Committed(w.inner, link).value);
    assert Coupled(w.stages[link.t], w.inner.threads[link.t]);
  }

  /** The step leaves the thread inside the map, decided, and adds the call to the list. */
  lemma DecisionRecorded(w: LockWorld, link: V.Step)
    requires AllCoupled(w) && L.Faithful(w.inner) && LockEnabled(w, Inner(link)) && L.Committed(w.inner, link).Some?
    ensures var w', pc, res := LockDo(w, Inner(link)), w.stages[link.t].pc, L.Committed(w.inner, link).value.res;
            && AllCoupled(w') && w'.log == w.log + [Entry(pc.c.id, pc.c.op, ResultOf(pc, res))]
            && w'.heap == w.heap && w'.nextId == w.nextId && w'.events == w.events
            && Seen(w).threads[link.t] == pc
            && Seen(w').threads == Seen(w).threads[link.t := Ended(pc.c, ResultOf(pc, res))]
  {
    CoupledStep(w, Inner(link));
    InnerMovesOne(w.inner, link);
    DecisionIsAtomic(w, link);
  }

  /** The atomic machine's world after a thread has read or written its link and ended. */
  function Linked(a: PairWorld, t: nat): PairWorld
    requires t < |a.threads| && CallsLink(a.threads[t])
  {
    var pc := a.threads[t];
    var res := ResultOf(pc, V.AtomicResult(a.links, LinkOp(pc.c.op)));
    PairWorld(a.threads[t := Ended(pc.c, res)], a.heap, V.AtomicEffect(a.links, LinkOp(pc.c.op)),
              a.nextId, a.events, a.log + [Entry(pc.c.id, pc.c.op, res)])
  }

  lemma DecisionSeen(w: LockWorld, link: V.Step)
    requires AllCoupled(w) && L.Faithful(w.inner) && LockEnabled(w, Inner(link)) && L.Committed(w.inner, link).Some?
    ensures AllCoupled(LockDo(w, Inner(link))) && Seen(w).threads[link.t] == w.stages[link.t].pc
    ensures Seen(LockDo(w, Inner(link))) == Linked(Seen(w), link.t)
  {
    DecisionIsAtomic(w, link);
    DecisionRecorded(w, link);
  }

  lemma LinkedIsStep(a: PairWorld, t: nat)
    requires t < |a.threads|
    ensures a.threads[t].Wrote? && a.threads[t].c.op.Put? ==>
              PairEnabled(a, WriteLink(t)) && PairDo(a, WriteLink(t)) == Linked(a, t)
    ensures a.threads[t].Got? && a.threads[t].c.op.Fetch? ==>
              PairEnabled(a, ReadLink(t)) && PairDo(a, ReadLink(t)) == Linked(a, t)
  {
  }

  /** So it is the one atomic access to the links. */
  lemma DecisionShown(w: LockWorld, link: V.Step)
    requires AllCoupled(w) && L.Faithful(w.inner) && LockEnabled(w, Inner(link)) && L.Committed(w.inner, link).Some?
    ensures var s := Shown(w, Inner(link)).value;
            && PairEnabled(Seen(w), s) && AllCoupled(LockDo(w, Inner(link)))
            && Seen(LockDo(w, Inner(link))) == PairDo(Seen(w), s)
  {
    DecisionSeen(w, link);
    LinkedIsStep(Seen(w), link.t);
    assert Coupled(w.stages[link.t], w.inner.threads[link.t]);
  }

  lemma StepShown(w: LockWorld, s: LockStep)
    requires AllCoupled(w) && L.Faithful(w.inner) && LockEnabled(w, s)
    ensures AllCoupled(LockDo(w, s)) && L.Faithful(LockDo(w, s).inner)
    ensures match Shown(w, s)
            case None => Seen(LockDo(w, s)) == Seen(w)
            case Some(p) => PairEnabled(Seen(w), p) && Seen(LockDo(w, s)) == PairDo(Seen(w), p)
  {
    LockStepInner(w, s);
    match s
    case Outer(step) => OuterShown(w, step);
    case CallLink(t) => CallShown(w, t);
    case Inner(link) =>
      if L.Committed(w.inner, link).Some? {
        DecisionShown(w, link);
      } else {
        QuietShown(w, link);
      }
  }

  lemma StartShown(n: nat, heap: map<V.Rid, Tuple>)
    ensures var w := LockStart(n, heap);
            AllCoupled(w) && L.Faithful(w.inner) && Seen(w) == Start(n, heap, map[])
  {
    L.ReachableSafe(n, []);
    assert Seen(LockStart(n, heap)).threads == Start(n, heap, map[]).threads;
  }

  lemma PairExecNext(w0: PairWorld, steps: seq<PairStep>, a: PairWorld, p: PairStep)
    requires PairExec(w0, steps) == Some(a) && PairEnabled(a, p)
    ensures PairExec(w0, steps + [p]) == Some(PairDo(a, p))
  {
    assert (steps + [p])[..|steps|] == steps;
  }

  /** Every schedule over the two-level map shows a schedule over the atomic map. */
  lemma {:induction false} LocksShowPairs(n: nat, heap: map<V.Rid, Tuple>, steps: seq<LockStep>)
    returns (shown: seq<PairStep>)
    requires LockExec(n, heap, steps).Some?
    ensures var w := LockExec(n, heap, steps).value;
            && AllCoupled(w) && L.Faithful(w.inner) && PairExec(Start(n, heap, map[]), shown) == Some(Seen(w))
  {
    if steps == [] {
      shown := [];
      StartShown(n, heap);
    } else {
      var last := |steps| - 1;
      shown := LocksShowPairs(n, heap, steps[..last]);
      var w := LockExec(n, heap, steps[..last]).value;
      StepShown(w, steps[last]);
      var p := Shown(w, steps[last]);
      if p.Some? {
        PairExecNext(Start(n, heap, map[]), shown, Seen(w), p.value);
        shown := shown + [p.value];
      }
    }
  }

  /** Puts and fetches over the two-level map with all its locks are linearizable to atomic operations on pairs of tuple
      and link, in every schedule. */
  lemma LockedPairsLinearizable(n: nat, heap: map<V.Rid, Tuple>, steps: seq<LockStep>)
    requires LockExec(n, heap, steps).Some?
    ensures var w := LockExec(n, heap, steps).value;
            PairsLegal(InitialPairs(heap, map[]), w.log) && Orders(w.events, w.log)
  {
    var shown := LocksShowPairs(n, heap, steps);
    PairsLinearizable(n, heap, map[], shown);
  }

  /** Over the two-level map too, a put or fetch that returned did what its check, its length and the stored pair say.
      */
  lemma LockedPairMeans(n: nat, heap: map<V.Rid, Tuple>, steps: seq<LockStep>, p: nat) returns (i: nat)
    requires LockExec(n, heap, steps).Some?
    requires p < |LockExec(n, heap, steps).value.events| && LockExec(n, heap, steps).value.events[p].Returned?
    ensures var w, init := LockExec(n, heap, steps).value, InitialPairs(heap, map[]);
            && i < |w.log| && w.log[i].id == w.events[p].id && w.log[i].res == w.events[p].res
            && Invoked(w.log[i].id, w.log[i].op) in w.events
            && PairEntryMeans(w.log[i], PairsAfter(init, w.log[..i]), PairsAfter(init, w.log[..i + 1]))
  {
    LockedPairsLinearizable(n, heap, steps);
    var w := LockExec(n, heap, steps).value;
    i := ReturnedEntry(w.events, w.log, p);
    PairEntryObeys(InitialPairs(heap, map[]), w.log, i);
  }

  /** No torn reads over the two-level map either. */
  lemma LockedFetchNeverTorn(n: nat, heap: map<V.Rid, Tuple>, steps: seq<LockStep>, w: LockWorld, p: nat)
    requires LockExec(n, heap, steps) == Some(w)
    requires p < |w.events| && w.events[p].Returned? && w.events[p].res.Pair?
    ensures exists i :: 0 <= i < |w.log| && w.log[i].id == w.events[p].id && w.log[i].op.Fetch?
                        && FromOneSource(InitialPairs(heap, map[]), w.log[..i], w.log[i].op.rid, w.events[p].res)
  {
    var shown := LocksShowPairs(n, heap, steps);
    FetchNeverTorn(n, heap, map[], shown, Seen(w), p);
  }

  // ----- No deadlock -----

  /** The next step of a thread in a call. */
  function NextStep(w: LockWorld, t: nat): LockStep
    requires t < |w.stages| == |w.inner.threads| && w.stages[t] != At(PairPc.Idle)
    requires w.stages[t].Linking? ==> !w.inner.threads[t].Idle?
  {
    match w.stages[t]
    case Linking(_) => Inner(L.OwnStep(w.inner.threads[t], t))
    case At(pc) =>
      match pc
      case Waiting(_) => Outer(Lock(t))
      case Locked(_) => Outer(ReadBase(t))
      case Checked(_, _) => Outer(WriteTuple(t))
      case Ended(_, _) => Outer(PairStep.Return(t))
      case _ => CallLink(t)
  }

  /** Inside the page's lock only the link map can make a thread wait. */
  lemma InsideCanStep(w: LockWorld, t: nat) returns (u: nat)
    requires AllCoupled(w) && L.Faithful(w.inner) && t < |w.stages| && Inside(w.stages[t].pc)
    ensures u < |w.stages| && w.stages[u] != At(PairPc.Idle)
    ensures Coupled(w.stages[u], w.inner.threads[u]) && LockEnabled(w, NextStep(w, u))
  {
    assert Coupled(w.stages[t], w.inner.threads[t]);
    u := t;
    if w.stages[t].Linking? {
      u := L.SomeThreadCanStep(w.inner, t);
      assert Coupled(w.stages[u], w.inner.threads[u]);
    } else {
      assert Base(w).threads[t] == w.stages[t].pc;
    }
  }

  /** No deadlock across the page's lock, the map's mutex and the page entry's mutex: as long as a put or fetch is
      unfinished, some unfinished one can take its next step. */
  lemma LocksNeverStuck(n: nat, heap: map<V.Rid, Tuple>, steps: seq<LockStep>, t: nat) returns (u: nat)
    requires LockExec(n, heap, steps).Some? && t < |LockExec(n, heap, steps).value.stages|
    requires LockExec(n, heap, steps).value.stages[t] != At(PairPc.Idle)
    ensures var w := LockExec(n, heap, steps).value;
            && AllCoupled(w) && u < |w.stages| && w.stages[u] != At(PairPc.Idle)
            && Coupled(w.stages[u], w.inner.threads[u]) && LockEnabled(w, NextStep(w, u))
  {
    var shown := LocksShowPairs(n, heap, steps);
    var w := LockExec(n, heap, steps).value;
    assert Coupled(w.stages[t], w.inner.threads[t]);
    if Inside(w.stages[t].pc) {
      u := InsideCanStep(w, t);
    } else if v :| 0 <= v < |w.stages| && v != t && !MayShare(Locked(w.stages[t].pc.c), w.stages[v].pc) {
      u := InsideCanStep(w, v);
    } else {
      u := t;
      assert Base(w).threads[t] == w.stages[t].pc;
    }
  }

  /** How many steps a thread still has to take, at most. */
  function StageWork(stage: Stage, inner: V.Pc): nat {
    match stage
    case Linking(_) => 2 + L.Remaining(inner)
    case At(pc) =>
      match pc
      case Idle => 0
      case Waiting(_) => 14
      case Locked(_) => 13
      case Checked(_, _) => 12
      case Ended(_, _) => 1
      case _ => 11
  }

  function LockWork(stages: seq<Stage>, inners: seq<V.Pc>): nat
    requires |stages| == |inners|
  {
    if stages == [] then 0 else StageWork(stages[0], inners[0]) + LockWork(stages[1..], inners[1..])
  }

  lemma {:induction false} LockWorkUpdate(stages: seq<Stage>, inners: seq<V.Pc>, t: nat, stage: Stage, inner: V.Pc)
    requires t < |stages| == |inners|
    ensures LockWork(stages[t := stage], inners[t := inner]) ==
              LockWork(stages, inners) - StageWork(stages[t], inners[t]) + StageWork(stage, inner)
  {
    if t > 0 {
      assert stages[t := stage][1..] == stages[1..][t - 1 := stage];
      assert inners[t := inner][1..] == inners[1..][t - 1 := inner];
      LockWorkUpdate(stages[1..], inners[1..], t - 1, stage, inner);
    } else {
      assert stages[t := stage][1..] == stages[1..] && inners[t := inner][1..] == inners[1..];
    }
  }

  /** Only the step's own thread moves, on both levels. */
  ghost predicate MovesOne(w: LockWorld, w': LockWorld, t: nat) {
    && |w'.stages| == |w.stages| == |w.inner.threads| == |w'.inner.threads| && t < |w.stages|
    && w'.stages == w.stages[t := w'.stages[t]] && w'.inner.threads == w.inner.threads[t := w'.inner.threads[t]]
  }

  lemma OuterLowers(w: LockWorld, step: PairStep)
    requires AllCoupled(w) && LockEnabled(w, Outer(step)) && !step.Invoke?
    ensures var w', t := LockDo(w, Outer(step)), step.t;
            && MovesOne(w, w', t)
            && StageWork(w'.stages[t], w'.inner.threads[t]) < StageWork(w.stages[t], w.inner.threads[t])
  {
    assert Base(w).threads[step.t] == w.stages[step.t].pc;
  }

  lemma CallLowers(w: LockWorld, t: nat)
    requires AllCoupled(w) && LockEnabled(w, CallLink(t))
    ensures var w' := LockDo(w, CallLink(t));
            && MovesOne(w, w', t)
            && StageWork(w'.stages[t], w'.inner.threads[t]) < StageWork(w.stages[t], w.inner.threads[t])
  {
    InnerMovesOne(w.inner, V.Step.Invoke(t, LinkOp(w.stages[t].pc.c.op)));
  }

  lemma InnerLowers(w: LockWorld, link: V.Step)
    requires AllCoupled(w) && LockEnabled(w, Inner(link))
    ensures var w', t := LockDo(w, Inner(link)), link.t;
            && MovesOne(w, w', t)
            && StageWork(w'.stages[t], w'.inner.threads[t]) < StageWork(w.stages[t], w.inner.threads[t])
  {
    InnerMovesOne(w.inner, link);
    InnerKeepsCall(w.inner, link);
  }

  /** Every step of a put or fetch lowers the total work, so they all finish once no new ones are made. */
  lemma LockStepLowersWork(w: LockWorld, s: LockStep)
    requires AllCoupled(w) && LockEnabled(w, s) && !(s.Outer? && s.step.Invoke?)
    ensures AllCoupled(LockDo(w, s))
    ensures LockWork(LockDo(w, s).stages, LockDo(w, s).inner.threads) < LockWork(w.stages, w.inner.threads)
  {
    CoupledStep(w, s);
    match s {
      case Outer(step) => OuterLowers(w, step);
      case CallLink(t) => CallLowers(w, t);
      case Inner(link) => InnerLowers(w, link);
    }
    var w', t := LockDo(w, s), ThreadOf(s);
    LockWorkUpdate(w.stages, w.inner.threads, t, w'.stages[t], w'.inner.threads[t]);
  }
}
