/** Updating and reading a tuple together with its undo link, under the table page's reader-writer lock. Here the link
    map takes one atomic operation a step; PairLocks puts the two-level map with its locks in its place. */
module TuplePairs {
  import opened Wrappers
  import opened Histories
  import opened VersionLinks

  datatype Tuple = Tuple(ts: int, deleted: bool, content: seq<int>)
  type Check = (Tuple, Rid, Option<UndoLink>) -> bool

  /** The check is given the stored tuple and the link that is to be written. */
  datatype PairOp =
    | Put(rid: Rid, tuple: Tuple, link: Option<UndoLink>, check: Option<Check>)
    | Fetch(rid: Rid)

  datatype PairResult = Stored(ok: bool) | Pair(tuple: Tuple, link: Option<UndoLink>) | NoSuchTuple | WrongSize

  // ----- The atomic operations on pairs -----

  type Pairs = map<Rid, (Tuple, Option<UndoLink>)>

  predicate Allowed(op: PairOp, base: Tuple)
    requires op.Put?
  {
    op.check.Some? ==> op.check.value(base, op.rid, op.link)
  }

  /** A tuple is overwritten in place only by one of the same length. */
  predicate Fits(op: PairOp, base: Tuple)
    requires op.Put?
  {
    |op.tuple.content| == |base.content|
  }

  predicate Storable(op: PairOp, base: Tuple) {
    op.Put? && Allowed(op, base) && Fits(op, base)
  }

  function PairOutcome(m: Pairs, op: PairOp): PairResult {
    if op.rid !in m then NoSuchTuple
    else match op
      case Fetch(rid) => Pair(m[rid].0, m[rid].1)
      case Put(rid, _, _, _) =>
        if Allowed(op, m[rid].0) && !Fits(op, m[rid].0) then WrongSize else Stored(Allowed(op, m[rid].0))
  }

  function PairEffect(m: Pairs, op: PairOp): Pairs {
    if op.rid in m && Storable(op, m[op.rid].0) then m[op.rid := (op.tuple, op.link)] else m
  }

  type PairEntry = Entry<PairOp, PairResult>
  type PairEvent = Event<PairOp, PairResult>

  function PairsAfter(init: Pairs, log: seq<PairEntry>): Pairs {
    if log == [] then init else PairEffect(PairsAfter(init, log[..|log| - 1]), log[|log| - 1].op)
  }

  ghost predicate PairsLegal(init: Pairs, log: seq<PairEntry>) {
    forall i :: 0 <= i < |log| ==> log[i].res == PairOutcome(PairsAfter(init, log[..i]), log[i].op)
  }

  // ----- The machine -----

  datatype PairCall = PairCall(id: nat, op: PairOp)

  datatype PairPc =
    | Idle
    | Waiting(c: PairCall)               // for the page lock
    | Locked(c: PairCall)
    | Checked(c: PairCall, base: Tuple)  // put: the check passed
    | Wrote(c: PairCall)                 // put: the tuple is stored, the link is not yet
    | Got(c: PairCall, tuple: Tuple)     // fetch: read the tuple, not yet the link
    | Ended(c: PairCall, res: PairResult)

  datatype PairWorld = PairWorld(threads: seq<PairPc>, heap: map<Rid, Tuple>, links: map<Rid, UndoLink>,
                                 nextId: nat, events: seq<PairEvent>, log: seq<PairEntry>)

  datatype PairStep = Invoke(t: nat, op: PairOp) | Lock(t: nat) | ReadBase(t: nat) | WriteTuple(t: nat)
                    | WriteLink(t: nat) | ReadLink(t: nat) | Return(t: nat)

  predicate Inside(pc: PairPc) {
    !pc.Idle? && !pc.Waiting?
  }

  /** Two threads may be inside the lock of one page only if both read. */
  predicate MayShare(a: PairPc, b: PairPc) {
    Inside(a) && Inside(b) && a.c.op.rid.page == b.c.op.rid.page ==> a.c.op.Fetch? && b.c.op.Fetch?
  }

  ghost predicate PairEnabled(w: PairWorld, step: PairStep) {
    step.t < |w.threads| &&
    var pc := w.threads[step.t];
    match step
    case Invoke(_, _) => pc.Idle?
    case Lock(_) =>
      pc.Waiting? && forall u :: 0 <= u < |w.threads| && u != step.t ==> MayShare(Locked(pc.c), w.threads[u])
    case ReadBase(_) => pc.Locked?
    case WriteTuple(_) => pc.Checked? && pc.c.op.Put?
    case WriteLink(_) => pc.Wrote? && pc.c.op.Put?
    case ReadLink(_) => pc.Got?
    case Return(_) => pc.Ended?
  }

  /** The operation on the link map that is part of a put or a fetch; an update made for a put has no check. */
  function LinkOp(op: PairOp): Op {
    match op
    case Put(rid, _, link, _) => Update(rid, link, None)
    case Fetch(rid) => Get(rid)
  }

  function End(w: PairWorld, t: nat, c: PairCall, res: PairResult): PairWorld
    requires t < |w.threads|
  {
    w.(threads := w.threads[t := Ended(c, res)], log := w.log + [Entry(c.id, c.op, res)])
  }

  function PairDo(w: PairWorld, step: PairStep): PairWorld
    requires PairEnabled(w, step)
  {
    var t := step.t;
    var pc := w.threads[t];
    match step
    case Invoke(_, op) =>
      w.(threads := w.threads[t := Waiting(PairCall(w.nextId, op))], nextId := w.nextId + 1,
         events := w.events + [Invoked(w.nextId, op)])
    case Lock(_) => w.(threads := w.threads[t := Locked(pc.c)])
    case ReadBase(_) =>
      var op := pc.c.op;
      if op.rid !in w.heap then End(w, t, pc.c, NoSuchTuple)
      else if op.Fetch? then w.(threads := w.threads[t := Got(pc.c, w.heap[op.rid])])
      else if !Allowed(op, w.heap[op.rid]) then End(w, t, pc.c, Stored(false))
      else w.(threads := w.threads[t := Checked(pc.c, w.heap[op.rid])])
    case WriteTuple(_) =>
      var op := pc.c.op;
      if op.tuple == pc.base then w.(threads := w.threads[t := Wrote(pc.c)])
      else if !Fits(op, pc.base) then End(w, t, pc.c, WrongSize)
      else w.(threads := w.threads[t := Wrote(pc.c)], heap := w.heap[op.rid := op.tuple])
    case WriteLink(_) =>
      End(w, t, pc.c, Stored(true)).(links := AtomicEffect(w.links, LinkOp(pc.c.op)))
    case ReadLink(_) =>
      End(w, t, pc.c, Pair(pc.tuple, AtomicResult(w.links, Get(pc.c.op.rid)).link))
    case Return(_) =>
      w.(threads := w.threads[t := PairPc.Idle], events := w.events + [Returned(pc.c.id, pc.res)])
  }

  function Start(n: nat, heap: map<Rid, Tuple>, links: map<Rid, UndoLink>): PairWorld {
    PairWorld(seq(n, _ => PairPc.Idle), heap, links, 0, [], [])
  }

  function InitialPairs(heap: map<Rid, Tuple>, links: map<Rid, UndoLink>): Pairs {
    map rid | rid in heap :: (heap[rid], Lookup(links, rid))
  }

  ghost function PairExec(w0: PairWorld, steps: seq<PairStep>): Option<PairWorld> {
    if steps == [] then Some(w0)
    else
      var w := PairExec(w0, steps[..|steps| - 1]);
      if w.Some? && PairEnabled(w.value, steps[|steps| - 1]) then Some(PairDo(w.value, steps[|steps| - 1])) else None
  }

  // ----- What every step keeps -----

  ghost predicate LocksRespected(threads: seq<PairPc>) {
    forall t, u :: 0 <= t < |threads| && 0 <= u < |threads| && t != u ==> MayShare(threads[t], threads[u])
  }

  /** What a thread has read is still stored, and a put in progress has passed its check. */
  ghost predicate PairSeen(pc: PairPc, heap: map<Rid, Tuple>, pairs: Pairs) {
    && (pc.Got? || pc.Checked? || pc.Wrote? ==> pc.c.op.rid in heap && pc.c.op.rid in pairs)
    && (pc.Got? ==> pc.c.op.Fetch? && heap[pc.c.op.rid] == pc.tuple == pairs[pc.c.op.rid].0)
    && (pc.Checked? ==>
          pc.c.op.Put? && heap[pc.c.op.rid] == pc.base == pairs[pc.c.op.rid].0 && Allowed(pc.c.op, pc.base))
    && (pc.Wrote? ==> pc.c.op.Put? && heap[pc.c.op.rid] == pc.c.op.tuple && Storable(pc.c.op, pairs[pc.c.op.rid].0))
  }

  ghost predicate HalfWritten(threads: seq<PairPc>, rid: Rid) {
    exists t :: 0 <= t < |threads| && threads[t].Wrote? && threads[t].c.op.rid == rid
  }

  /** The stored tuple and link are the current pair, except under a put that has written the tuple only. */
  ghost predicate PairCurrent(w: PairWorld, pairs: Pairs, rid: Rid) {
    && (rid in w.heap <==> rid in pairs)
    && (rid in pairs ==>
          && Lookup(w.links, rid) == pairs[rid].1
          && (w.heap[rid] == pairs[rid].0
              || HalfWritten(w.threads, rid)))
  }

  ghost predicate AllSeen(w: PairWorld, pairs: Pairs) {
    forall t :: 0 <= t < |w.threads| ==> PairSeen(w.threads[t], w.heap, pairs)
  }

  ghost predicate AllCurrent(w: PairWorld, pairs: Pairs) {
    forall rid :: PairCurrent(w, pairs, rid)
  }

  ghost predicate PairsSafe(w: PairWorld, init: Pairs) {
    var pairs := PairsAfter(init, w.log);
    LocksRespected(w.threads) && AllSeen(w, pairs) && AllCurrent(w, pairs) && PairsLegal(init, w.log)
  }

  lemma PairsAppend(init: Pairs, log: seq<PairEntry>, e: PairEntry)
    ensures PairsAfter(init, log + [e]) == PairEffect(PairsAfter(init, log), e.op)
    ensures PairsLegal(init, log) && e.res == PairOutcome(PairsAfter(init, log), e.op) ==> PairsLegal(init, log + [e])
  {
    var log' := log + [e];
    assert log'[..|log|] == log;
    assert forall i :: 0 <= i < |log| ==> log'[..i] == log[..i];
  }

  /** A thread is inside a lock after a step only if it was, with the same call, or has just taken it. */
  lemma InsideAfter(w: PairWorld, step: PairStep)
    requires PairEnabled(w, step)
    ensures var pc, w' := w.threads[step.t], PairDo(w, step);
            && w'.threads == w.threads[step.t := w'.threads[step.t]]
            && (Inside(w'.threads[step.t]) ==>
                  w'.threads[step.t].c == pc.c && (Inside(pc) || (step.Lock? && w'.threads[step.t] == Locked(pc.c))))
  {
  }

  lemma LocksRespectedStep(w: PairWorld, step: PairStep)
    requires LocksRespected(w.threads) && PairEnabled(w, step)
    ensures LocksRespected(PairDo(w, step).threads)
  {
    var t, w' := step.t, PairDo(w, step);
    InsideAfter(w, step);
    forall u | 0 <= u < |w.threads| && u != t ensures MayShare(w'.threads[t], w.threads[u]) {
      assert MayShare(w.threads[t], w.threads[u]);
    }
  }

  /** Alone on the page, a thread sees the current pair. */
  lemma SeesCurrent(w: PairWorld, init: Pairs, t: nat)
    requires PairsSafe(w, init) && t < |w.threads| && Inside(w.threads[t]) && !w.threads[t].Wrote?
    ensures var rid, pairs := w.threads[t].c.op.rid, PairsAfter(init, w.log);
            && (rid in w.heap <==> rid in pairs)
            && (rid in pairs ==> w.heap[rid] == pairs[rid].0 && Lookup(w.links, rid) == pairs[rid].1)
  {
    var rid, pairs := w.threads[t].c.op.rid, PairsAfter(init, w.log);
    assert PairCurrent(w, pairs, rid);
    assert forall u :: 0 <= u < |w.threads| && u != t ==>
        MayShare(w.threads[t], w.threads[u]) && PairSeen(w.threads[u], w.heap, pairs);
  }

  /** A step that settles a call has the result and the effect of the atomic operation; other steps leave the list. */
  lemma PairsEntry(w: PairWorld, init: Pairs, step: PairStep)
    requires PairsSafe(w, init) && PairEnabled(w, step)
    ensures var w', pc, pairs := PairDo(w, step), w.threads[step.t], PairsAfter(init, w.log);
            || (w'.log == w.log && !step.WriteLink?)
            || exists res :: w'.log == w.log + [Entry(pc.c.id, pc.c.op, res)] && res == PairOutcome(pairs, pc.c.op)
                             && PairEffect(pairs, pc.c.op) == PairsNext(pairs, w, step)
  {
    var w', pc := PairDo(w, step), w.threads[step.t];
    var pairs := PairsAfter(init, w.log);
    assert PairSeen(pc, w.heap, pairs);
    if Inside(pc) && !pc.Wrote? {
      SeesCurrent(w, init, step.t);
    }
    if w'.log != w.log {
      var res := w'.log[|w.log|].res;
      assert w'.log == w.log + [Entry(pc.c.id, pc.c.op, res)];
    }
  }

  function PairsNext(pairs: Pairs, w: PairWorld, step: PairStep): Pairs
    requires step.t < |w.threads|
  {
    var pc := w.threads[step.t];
    if step.WriteLink? && pc.Wrote? && pc.c.op.Put? then pairs[pc.c.op.rid := (pc.c.op.tuple, pc.c.op.link)] else pairs
  }

  lemma PairsStep(w: PairWorld, init: Pairs, step: PairStep)
    requires PairsSafe(w, init) && PairEnabled(w, step)
    ensures PairsLegal(init, PairDo(w, step).log)
    ensures PairsAfter(init, PairDo(w, step).log) == PairsNext(PairsAfter(init, w.log), w, step)
  {
    PairsEntry(w, init, step);
    var w' := PairDo(w, step);
    if w'.log != w.log {
      PairsAppend(init, w.log, w'.log[|w.log|]);
    }
  }

  /** What the step's thread is about to read is the current tuple. */
  ghost predicate ReadsCurrent(w: PairWorld, pairs: Pairs, step: PairStep)
    requires PairEnabled(w, step)
  {
    step.ReadBase? ==>
      var rid := w.threads[step.t].c.op.rid;
      (rid in w.heap <==> rid in pairs) && (rid in pairs ==> w.heap[rid] == pairs[rid].0)
  }

  lemma PairSeenNext(w: PairWorld, pairs: Pairs, step: PairStep, u: nat)
    requires LocksRespected(w.threads) && AllSeen(w, pairs) && PairEnabled(w, step) && ReadsCurrent(w, pairs, step)
    requires u < |w.threads|
    ensures PairSeen(PairDo(w, step).threads[u], PairDo(w, step).heap, PairsNext(pairs, w, step))
  {
    assert PairSeen(w.threads[u], w.heap, pairs) && PairSeen(w.threads[step.t], w.heap, pairs);
    if u != step.t {
      assert MayShare(w.threads[step.t], w.threads[u]);
    }
  }

  lemma HalfWrittenKept(threads: seq<PairPc>, rid: Rid, t: nat, pc: PairPc)
    requires HalfWritten(threads, rid) && t < |threads| && !(threads[t].Wrote? && threads[t].c.op.rid == rid)
    ensures HalfWritten(threads[t := pc], rid)
  {
    var u :| 0 <= u < |threads| && threads[u].Wrote? && threads[u].c.op.rid == rid;
    assert threads[t := pc][u] == threads[u];
  }

  lemma PairCurrentNext(w: PairWorld, pairs: Pairs, step: PairStep, rid: Rid)
    requires PairEnabled(w, step) && PairCurrent(w, pairs, rid) && PairSeen(w.threads[step.t], w.heap, pairs)
    ensures PairCurrent(PairDo(w, step), PairsNext(pairs, w, step), rid)
  {
    var w', t := PairDo(w, step), step.t;
    var pc := w.threads[t];
    assert w'.threads == w.threads[t := w'.threads[t]];
    if step.WriteTuple? && pc.c.op.rid == rid {
      assert w'.threads[t].Wrote? || w'.heap == w.heap;
    }
    if HalfWritten(w.threads, rid) && !(step.WriteLink? && pc.c.op.rid == rid) {
      HalfWrittenKept(w.threads, rid, t, w'.threads[t]);
    }
  }

  lemma PairCurrentStep(w: PairWorld, init: Pairs, step: PairStep, rid: Rid)
    requires PairsSafe(w, init) && PairEnabled(w, step)
    ensures PairCurrent(PairDo(w, step), PairsAfter(init, PairDo(w, step).log), rid)
  {
    PairsStep(w, init, step);
    PairCurrentNext(w, PairsAfter(init, w.log), step, rid);
  }

  lemma AllSeenNext(w: PairWorld, pairs: Pairs, step: PairStep)
    requires LocksRespected(w.threads) && AllSeen(w, pairs) && PairEnabled(w, step) && ReadsCurrent(w, pairs, step)
    ensures AllSeen(PairDo(w, step), PairsNext(pairs, w, step))
  {
    var w' := PairDo(w, step);
    forall u | 0 <= u < |w'.threads| ensures PairSeen(w'.threads[u], w'.heap, PairsNext(pairs, w, step)) {
      PairSeenNext(w, pairs, step, u);
    }
  }

  lemma AllSeenStep(w: PairWorld, init: Pairs, step: PairStep)
    requires PairsSafe(w, init) && PairEnabled(w, step)
    ensures AllSeen(PairDo(w, step), PairsAfter(init, PairDo(w, step).log))
  {
    PairsStep(w, init, step);
    if step.ReadBase? {
      SeesCurrent(w, init, step.t);
    }
    AllSeenNext(w, PairsAfter(init, w.log), step);
  }

  lemma AllCurrentStep(w: PairWorld, init: Pairs, step: PairStep)
    requires PairsSafe(w, init) && PairEnabled(w, step)
    ensures AllCurrent(PairDo(w, step), PairsAfter(init, PairDo(w, step).log))
  {
    forall rid ensures PairCurrent(PairDo(w, step), PairsAfter(init, PairDo(w, step).log), rid) {
      PairCurrentStep(w, init, step, rid);
    }
  }

  lemma PairsSafeStep(w: PairWorld, init: Pairs, step: PairStep)
    requires PairsSafe(w, init) && PairEnabled(w, step)
    ensures PairsSafe(PairDo(w, step), init)
  {
    LocksRespectedStep(w, step);
    PairsStep(w, init, step);
    AllSeenStep(w, init, step);
    AllCurrentStep(w, init, step);
  }

  // ----- The history -----

  function PairStatus(pc: PairPc): Status<PairOp, PairResult> {
    match pc
    case Idle => Free
    case Ended(c, res) => Settled(c.id, c.op, res)
    case _ => Pending(pc.c.id, pc.c.op)
  }

  function PairRecord(w: PairWorld): Record<PairOp, PairResult> {
    Record(seq(|w.threads|, t requires 0 <= t < |w.threads| => PairStatus(w.threads[t])), w.nextId, w.events, w.log)
  }

  lemma PairStepRecords(w: PairWorld, step: PairStep)
    requires PairEnabled(w, step)
    ensures var r, r' := PairRecord(w), PairRecord(PairDo(w, step));
            || r' == r
            || (exists op: PairOp :: Begins(r, r', step.t, op))
            || (exists res: PairResult :: Settles(r, r', step.t, res))
            || Finishes(r, r', step.t)
  {
    var r, w', t := PairRecord(w), PairDo(w, step), step.t;
    var r' := PairRecord(w');
    assert r'.calls == r.calls[t := PairStatus(w'.threads[t])];
    assert r.calls[t] == PairStatus(w.threads[t]);
    if step.Invoke? {
      assert Begins(r, r', t, step.op);
    } else if step.Return? {
      assert Finishes(r, r', t);
    } else if PairStatus(w'.threads[t]).Settled? {
      assert Settles(r, r', t, PairStatus(w'.threads[t]).res);
    }
  }

  lemma StartSafe(n: nat, heap: map<Rid, Tuple>, links: map<Rid, UndoLink>)
    ensures PairsSafe(Start(n, heap, links), InitialPairs(heap, links))
  {
  }

  lemma {:induction false} PairsReachable(n: nat, heap: map<Rid, Tuple>, links: map<Rid, UndoLink>,
                                          steps: seq<PairStep>)
    requires PairExec(Start(n, heap, links), steps).Some?
    ensures var w := PairExec(Start(n, heap, links), steps).value;
            PairsSafe(w, InitialPairs(heap, links)) && RecordOk(PairRecord(w))
  {
    var w0, init := Start(n, heap, links), InitialPairs(heap, links);
    if steps == [] {
      StartSafe(n, heap, links);
    } else {
      var last := |steps| - 1;
      PairsReachable(n, heap, links, steps[..last]);
      var w := PairExec(w0, steps[..last]).value;
      PairsSafeStep(w, init, steps[last]);
      PairStepRecords(w, steps[last]);
      RecordStep(PairRecord(w), PairRecord(PairDo(w, steps[last])), steps[last].t);
    }
  }

  /** Every schedule of puts and fetches is linearizable to atomic operations on pairs of tuple and link. */
  lemma PairsLinearizable(n: nat, heap: map<Rid, Tuple>, links: map<Rid, UndoLink>, steps: seq<PairStep>)
    requires PairExec(Start(n, heap, links), steps).Some?
    ensures var w := PairExec(Start(n, heap, links), steps).value;
            PairsLegal(InitialPairs(heap, links), w.log) && Orders(w.events, w.log)
  {
    PairsReachable(n, heap, links, steps);
  }

  /** A put that failed its check, or was refused, changed neither tuple nor link. */
  lemma FailedPutChangesNothing(init: Pairs, log: seq<PairEntry>, i: nat)
    requires PairsLegal(init, log) && i < |log| && log[i].res != Stored(true)
    ensures PairsAfter(init, log[..i + 1]) == PairsAfter(init, log[..i])
  {
    assert log[..i + 1] == log[..i] + [log[i]];
    PairsAppend(init, log[..i], log[i]);
  }

  /** Whenever no put is between its two writes, heap and link map hold exactly the pairs that the order of calls
      leaves. */
  lemma StoredIsReplayed(n: nat, heap: map<Rid, Tuple>, links: map<Rid, UndoLink>, steps: seq<PairStep>, rid: Rid)
    requires PairExec(Start(n, heap, links), steps).Some?
    requires !HalfWritten(PairExec(Start(n, heap, links), steps).value.threads, rid)
    ensures var w := PairExec(Start(n, heap, links), steps).value;
            var pairs := PairsAfter(InitialPairs(heap, links), w.log);
            && (rid in w.heap <==> rid in pairs)
            && (rid in pairs ==> pairs[rid] == (w.heap[rid], Lookup(w.links, rid)))
  {
    PairsReachable(n, heap, links, steps);
    var w := PairExec(Start(n, heap, links), steps).value;
    assert PairCurrent(w, PairsAfter(InitialPairs(heap, links), w.log), rid);
  }

  /** What an entry of the list did, said on the pairs before and after it. A put of an existing record was stored
      exactly when it has no check, or its check is true of the stored tuple and the new link, and the tuple has the
      stored length; otherwise it changed nothing. A fetch gives the stored pair. */
  ghost predicate PairEntryMeans(e: PairEntry, before: Pairs, after: Pairs) {
    var rid := e.op.rid;
    if rid !in before then e.res == NoSuchTuple && after == before
    else match e.op
      case Fetch(_) => e.res == Pair(before[rid].0, before[rid].1) && after == before
      case Put(_, tuple, link, check) =>
        var accepted := check.None? || check.value(before[rid].0, rid, link);
        var fits := |tuple.content| == |before[rid].0.content|;
        && (!accepted ==> e.res == Stored(false) && after == before)
        && (accepted && !fits ==> e.res == WrongSize && after == before)
        && (accepted && fits ==> e.res == Stored(true) && after == before[rid := (tuple, link)])
  }

  lemma PairEntryObeys(init: Pairs, log: seq<PairEntry>, i: nat)
    requires PairsLegal(init, log) && i < |log|
    ensures PairEntryMeans(log[i], PairsAfter(init, log[..i]), PairsAfter(init, log[..i + 1]))
  {
    assert log[..i + 1] == log[..i] + [log[i]];
    PairsAppend(init, log[..i], log[i]);
  }

  /** At the start a record's pair is its stored tuple and its stored link, if any. */
  lemma InitialPairsMeans(heap: map<Rid, Tuple>, links: map<Rid, UndoLink>, rid: Rid)
    ensures rid in InitialPairs(heap, links) <==> rid in heap
    ensures rid in heap ==>
              InitialPairs(heap, links)[rid] == (heap[rid], if rid in links then Some(links[rid]) else None)
  {
  }

  /** Over every schedule, a put or fetch that returned was made, has a place in the order of calls, and returned there
      what its check, its length and the stored pair say. */
  lemma ReturnedPairMeans(n: nat, heap: map<Rid, Tuple>, links: map<Rid, UndoLink>, steps: seq<PairStep>, p: nat)
    returns (i: nat)
    requires PairExec(Start(n, heap, links), steps).Some?
    requires p < |PairExec(Start(n, heap, links), steps).value.events|
    requires PairExec(Start(n, heap, links), steps).value.events[p].Returned?
    ensures var w, init := PairExec(Start(n, heap, links), steps).value, InitialPairs(heap, links);
            && i < |w.log| && w.log[i].id == w.events[p].id && w.log[i].res == w.events[p].res
            && Invoked(w.log[i].id, w.log[i].op) in w.events
            && PairEntryMeans(w.log[i], PairsAfter(init, w.log[..i]), PairsAfter(init, w.log[..i + 1]))
  {
    PairsLinearizable(n, heap, links, steps);
    var w := PairExec(Start(n, heap, links), steps).value;
    i := ReturnedEntry(w.events, w.log, p);
    PairEntryObeys(InitialPairs(heap, links), w.log, i);
  }

  lemma ReturnedEntry(events: seq<PairEvent>, log: seq<PairEntry>, p: nat) returns (i: nat)
    requires Orders(events, log) && p < |events| && events[p].Returned?
    ensures i < |log| && log[i].id == events[p].id && log[i].res == events[p].res
    ensures Invoked(log[i].id, log[i].op) in events
  {
    i :| 0 <= i < |log| && log[i].id == events[p].id && log[i].res == events[p].res;
  }

  /** A pair in the map is the initial one or was stored as a whole by one put. */
  lemma {:induction false} PairsHaveOneSource(init: Pairs, log: seq<PairEntry>, rid: Rid)
    requires PairsLegal(init, log) && rid in PairsAfter(init, log)
    ensures var pair := PairsAfter(init, log)[rid];
            || (rid in init && pair == init[rid])
            || exists j :: 0 <= j < |log| && log[j].res == Stored(true) && log[j].op.Put?
                           && log[j].op.rid == rid && (log[j].op.tuple, log[j].op.link) == pair
  {
    if log != [] {
      var last := |log| - 1;
      var before := log[..last];
      assert forall i :: 0 <= i < last ==> before[..i] == log[..i];
      if PairsAfter(init, before) == PairsAfter(init, log) || log[last].op.rid != rid {
        PairsHaveOneSource(init, before, rid);
      }
    }
  }

  /** The pair is current after `log`, and is the initial pair of the record or the argument of one stored put. */
  ghost predicate FromOneSource(init: Pairs, log: seq<PairEntry>, rid: Rid, res: PairResult) {
    && res.Pair? && rid in PairsAfter(init, log) && PairsAfter(init, log)[rid] == (res.tuple, res.link)
    && (|| (rid in init && init[rid] == (res.tuple, res.link))
        || exists j :: 0 <= j < |log| && log[j].res == Stored(true) && log[j].op.Put?
                       && log[j].op.rid == rid && (log[j].op.tuple, log[j].op.link) == (res.tuple, res.link))
  }

  lemma FetchEntryNotTorn(init: Pairs, log: seq<PairEntry>, i: nat)
    requires PairsLegal(init, log) && i < |log| && log[i].res.Pair?
    ensures log[i].op.Fetch? && FromOneSource(init, log[..i], log[i].op.rid, log[i].res)
  {
    var before := log[..i];
    assert forall j :: 0 <= j < i ==> before[..j] == log[..j];
    PairsHaveOneSource(init, before, log[i].op.rid);
  }

  /** No torn reads: a fetch that returned gave a tuple and a link that one put had stored together, or that stood
      together from the start; and it is the pair current at the fetch's place in the order of calls. */
  lemma FetchNeverTorn(n: nat, heap: map<Rid, Tuple>, links: map<Rid, UndoLink>, steps: seq<PairStep>, w: PairWorld,
                       p: nat)
    requires PairExec(Start(n, heap, links), steps) == Some(w)
    requires p < |w.events| && w.events[p].Returned? && w.events[p].res.Pair?
    ensures exists i :: 0 <= i < |w.log| && w.log[i].id == w.events[p].id && w.log[i].op.Fetch?
                        && FromOneSource(InitialPairs(heap, links), w.log[..i], w.log[i].op.rid, w.events[p].res)
  {
    PairsLinearizable(n, heap, links, steps);
    assert Complete(w.events, w.log);
    var i :| 0 <= i < |w.log| && w.log[i].id == w.events[p].id && w.log[i].res == w.events[p].res;
    FetchEntryNotTorn(InitialPairs(heap, links), w.log, i);
  }
}
