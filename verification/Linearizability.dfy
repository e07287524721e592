/** Every schedule of link updates and reads is linearizable to atomic operations on one flat map, and no schedule
    gets stuck before its calls are finished. */
module Linearizability {
  import opened Wrappers
  import opened Histories
  import opened VersionLinks

  // ----- The maps -----

  predicate KnowsPage(pc: Pc) {
    pc.Found? || HoldsPage(pc)
  }

  /** Pages have objects of their own. */
  ghost predicate PagesApart(versionInfo: map<nat, nat>, n: nat) {
    && (forall p :: p in versionInfo ==> versionInfo[p] < n)
    && (forall p, q :: p in versionInfo && q in versionInfo && p != q ==> versionInfo[p] != versionInfo[q])
  }

  /** What thread `pc` has seen of the maps is still so. */
  ghost predicate SeenHolds(pc: Pc, versionInfo: map<nat, nat>, objects: seq<Links>) {
    && (pc.Absent? ==> pc.c.op.rid.page !in versionInfo)
    && (KnowsPage(pc) ==> pc.obj < |objects| && pc.c.op.rid.page in versionInfo
                          && versionInfo[pc.c.op.rid.page] == pc.obj)
    && (pc.Looked? ==> pc.current == Lookup(objects[pc.obj], pc.c.op.rid.slot))
  }

  ghost predicate AllSeenHolds(w: World) {
    forall t :: 0 <= t < |w.threads| ==> SeenHolds(w.threads[t], w.versionInfo, w.objects)
  }

  ghost predicate SafeMaps(w: World) {
    && GlobalHeld(w.threads, w.exclusive, w.shared) && PagesHeld(w.threads, w.owners) && RolesKept(w.threads)
    && |w.owners| == |w.objects|
    && PagesApart(w.versionInfo, |w.objects|)
    && AllSeenHolds(w)
  }

  /** A thread about to create a page is alone with the map, a thread about to write is alone with its page. */
  lemma OthersUnaffected(w: World, step: Step, u: nat)
    requires SafeMaps(w) && Enabled(w, step) && u < |w.threads| && u != step.t
    ensures SeenHolds(w.threads[u], Do(w, step).versionInfo, Do(w, step).objects)
  {
    var pc := w.threads[step.t];
    assert SeenHolds(pc, w.versionInfo, w.objects) && SeenHolds(w.threads[u], w.versionInfo, w.objects);
    if step.Create? {
      assert w.exclusive == Some(step.t);
      assert !w.threads[u].Absent?;
    } else if step.Decide? && HoldsPage(w.threads[u]) {
      assert w.owners[pc.obj] == Some(step.t) && w.owners[w.threads[u].obj] == Some(u);
    }
  }

  lemma OwnSeenHolds(w: World, step: Step)
    requires SafeMaps(w) && Enabled(w, step)
    ensures SeenHolds(Do(w, step).threads[step.t], Do(w, step).versionInfo, Do(w, step).objects)
  {
    assert SeenHolds(w.threads[step.t], w.versionInfo, w.objects);
  }

  lemma PagesApartStep(w: World, step: Step)
    requires SafeMaps(w) && Enabled(w, step)
    ensures PagesApart(Do(w, step).versionInfo, |Do(w, step).objects|)
    ensures |Do(w, step).owners| == |Do(w, step).objects|
  {
  }

  lemma SafeMapsStep(w: World, step: Step)
    requires SafeMaps(w) && Enabled(w, step)
    ensures SafeMaps(Do(w, step))
  {
    GlobalStep(w, step);
    PagesStep(w, step);
    PagesApartStep(w, step);
    var w' := Do(w, step);
    forall u | 0 <= u < |w'.threads| ensures SeenHolds(w'.threads[u], w'.versionInfo, w'.objects) {
      if u == step.t {
        OwnSeenHolds(w, step);
      } else {
        assert w'.threads[u] == w.threads[u];
        OthersUnaffected(w, step, u);
      }
    }
  }

  // ----- The flat view -----

  /** The link of a record, through both levels. */
  function View(w: World, rid: Rid): Option<UndoLink> {
    if rid.page in w.versionInfo && w.versionInfo[rid.page] < |w.objects|
    then Lookup(w.objects[w.versionInfo[rid.page]], rid.slot) else None
  }

  /** The two-level map shows exactly the flat map that the committed operations leave. */
  ghost predicate ViewsReplay(w: World) {
    forall rid :: View(w, rid) == Lookup(Replay(w.log), rid)
  }

  /** The entry a step adds to the list of committed operations, if any. */
  function Committed(w: World, step: Step): Option<LinkEntry>
    requires Enabled(w, step)
  {
    if |Do(w, step).log| == |w.log| then None else Some(Do(w, step).log[|w.log|])
  }

  lemma ReplayAppend(log: seq<LinkEntry>, e: LinkEntry)
    ensures Replay(log + [e]) == AtomicEffect(Replay(log), e.op)
  {
    assert (log + [e])[..|log|] == log;
  }

  lemma LegalAppend(log: seq<LinkEntry>, e: LinkEntry)
    requires Legal(log) && e.res == AtomicResult(Replay(log), e.op)
    ensures Legal(log + [e])
  {
    var log' := log + [e];
    forall i | 0 <= i < |log'| ensures log'[i].res == AtomicResult(Replay(log'[..i]), log'[i].op) {
      assert i < |log| ==> log'[..i] == log[..i];
      assert log'[..|log|] == log;
    }
  }

  /** A step without a commit leaves the view alone. */
  lemma QuietStep(w: World, step: Step, rid: Rid)
    requires SafeMaps(w) && Enabled(w, step) && Committed(w, step).None?
    ensures View(Do(w, step), rid) == View(w, rid) && Do(w, step).log == w.log
  {
    assert SeenHolds(w.threads[step.t], w.versionInfo, w.objects);
  }

  /** A committing step has the atomic operation's result and the atomic operation's effect on the view. */
  lemma CommitStep(w: World, step: Step, rid: Rid)
    requires SafeMaps(w) && ViewsReplay(w) && Enabled(w, step) && Committed(w, step).Some?
    ensures var e := Committed(w, step).value;
            && Do(w, step).log == w.log + [e]
            && e.res == AtomicResult(Replay(w.log), e.op)
            && View(Do(w, step), rid) == Lookup(AtomicEffect(Replay(w.log), e.op), rid)
  {
    var pc := w.threads[step.t];
    assert SeenHolds(pc, w.versionInfo, w.objects);
    assert View(w, pc.c.op.rid) == Lookup(Replay(w.log), pc.c.op.rid);
    assert View(w, rid) == Lookup(Replay(w.log), rid);
  }

  ghost predicate Faithful(w: World) {
    SafeMaps(w) && ViewsReplay(w) && Legal(w.log)
  }

  lemma FaithfulStep(w: World, step: Step)
    requires Faithful(w) && Enabled(w, step)
    ensures Faithful(Do(w, step))
  {
    SafeMapsStep(w, step);
    var w' := Do(w, step);
    if Committed(w, step).Some? {
      var e := Committed(w, step).value;
      CommitStep(w, step, Rid(0, 0));
      LegalAppend(w.log, e);
      forall rid ensures View(w', rid) == Lookup(Replay(w'.log), rid) {
        CommitStep(w, step, rid);
        ReplayAppend(w.log, e);
      }
    } else {
      QuietStep(w, step, Rid(0, 0));
      forall rid ensures View(w', rid) == Lookup(Replay(w'.log), rid) {
        QuietStep(w, step, rid);
      }
    }
  }

  // ----- The history -----

  function StatusOf(pc: Pc): Status<Op, Outcome> {
    match pc
    case Idle => Free
    case Missed(c) => Settled(c.id, c.op, Read(None))
    case Finished(c, _, res) => Settled(c.id, c.op, res)
    case _ => Pending(pc.c.id, pc.c.op)
  }

  function RecordOf(w: World): Record<Op, Outcome> {
    Record(seq(|w.threads|, t requires 0 <= t < |w.threads| => StatusOf(w.threads[t])), w.nextId, w.events, w.log)
  }

  /** What a step does to the history: it announces a call, settles one, finishes one, or nothing. */
  lemma StepRecords(w: World, step: Step)
    requires Enabled(w, step)
    ensures var r, r' := RecordOf(w), RecordOf(Do(w, step));
            || r' == r
            || (exists op: Op :: Begins(r, r', step.t, op))
            || (exists res: Outcome :: Settles(r, r', step.t, res))
            || Finishes(r, r', step.t)
  {
    var r, w', t := RecordOf(w), Do(w, step), step.t;
    var r' := RecordOf(w');
    assert r'.calls == r.calls[t := StatusOf(w'.threads[t])];
    assert r.calls[t] == StatusOf(w.threads[t]);
    if step.Invoke? {
      assert Begins(r, r', t, step.op);
    } else if step.Return? {
      assert Finishes(r, r', t);
    } else if StatusOf(w'.threads[t]).Settled? {
      assert Settles(r, r', t, StatusOf(w'.threads[t]).res);
    }
  }

  // ----- The theorems -----

  lemma {:induction false} ReachableSafe(n: nat, steps: seq<Step>)
    requires Exec(n, steps).Some?
    ensures Faithful(Exec(n, steps).value) && RecordOk(RecordOf(Exec(n, steps).value))
  {
    if steps != [] {
      var last := |steps| - 1;
      ReachableSafe(n, steps[..last]);
      var w := Exec(n, steps[..last]).value;
      FaithfulStep(w, steps[last]);
      StepRecords(w, steps[last]);
      RecordStep(RecordOf(w), RecordOf(Do(w, steps[last])), steps[last].t);
    }
  }

  /** Every schedule of any number of threads is linearizable: the list of committed operations is a legal sequential
      order of the calls on the flat map, complete for the calls that returned and faithful to the order in time; and
      the two-level map always shows the flat map that this order leaves. */
  lemma SchedulesLinearizable(n: nat, steps: seq<Step>)
    requires Exec(n, steps).Some?
    ensures var w := Exec(n, steps).value;
            && Linearizes(w.events, w.log)
            && forall rid :: View(w, rid) == Lookup(Replay(w.log), rid)
  {
    ReachableSafe(n, steps);
  }

  // ----- What calls return, said on maps and checks -----

  /** The links that the calls ordered before entry `i` leave. */
  function LinksBefore(log: seq<LinkEntry>, i: nat): Flat
    requires i <= |log|
  {
    Replay(log[..i])
  }

  /** An update was accepted exactly when it has no check or its check is true of the link that was current: nothing
      stored counts as no link. If it was accepted its link is stored, or removed, and nothing else changes; if not,
      nothing changes. */
  ghost predicate ObeysCheck(e: LinkEntry, before: Flat, after: Flat) {
    e.op.Update? &&
    var rid := e.op.rid;
    var current := if rid in before then Some(before[rid]) else None;
    var accepted := e.op.check.None? || e.op.check.value(current);
    && e.res == Done(accepted)
    && (!accepted ==> after == before)
    && (accepted && e.op.link.Some? ==> after == before[rid := e.op.link.value])
    && (accepted && e.op.link.None? ==> after == before - {rid})
  }

  /** A read returned the stored link, or none, and changed nothing. */
  ghost predicate ReadsStored(e: LinkEntry, before: Flat, after: Flat) {
    e.op.Get? && after == before && e.res == Read(if e.op.rid in before then Some(before[e.op.rid]) else None)
  }

  lemma EntryMeans(log: seq<LinkEntry>, i: nat)
    requires Legal(log) && i < |log|
    ensures if log[i].op.Update? then ObeysCheck(log[i], LinksBefore(log, i), LinksBefore(log, i + 1))
            else ReadsStored(log[i], LinksBefore(log, i), LinksBefore(log, i + 1))
  {
    assert log[..i + 1] == log[..i] + [log[i]];
    ReplayAppend(log[..i], log[i]);
  }

  /** Over every schedule, a call that returned was made, has a place in the order of calls, and returned there what its
      check, or the stored link, says. */
  lemma ReturnedCallMeans(n: nat, steps: seq<Step>, p: nat) returns (i: nat)
    requires Exec(n, steps).Some?
    requires p < |Exec(n, steps).value.events| && Exec(n, steps).value.events[p].Returned?
    ensures var w := Exec(n, steps).value;
            && i < |w.log| && w.log[i].id == w.events[p].id && w.log[i].res == w.events[p].res
            && Invoked(w.log[i].id, w.log[i].op) in w.events
            && if w.log[i].op.Update? then ObeysCheck(w.log[i], LinksBefore(w.log, i), LinksBefore(w.log, i + 1))
               else ReadsStored(w.log[i], LinksBefore(w.log, i), LinksBefore(w.log, i + 1))
  {
    SchedulesLinearizable(n, steps);
    var w := Exec(n, steps).value;
    assert Complete(w.events, w.log) && Sound(w.events, w.log);
    i :| 0 <= i < |w.log| && w.log[i].id == w.events[p].id && w.log[i].res == w.events[p].res;
    EntryMeans(w.log, i);
  }

  /** The first calls start from an empty map. */
  lemma NothingStoredFirst(log: seq<LinkEntry>)
    ensures LinksBefore(log, 0) == map[]
  {
  }

  // ----- Progress -----

  /** A thread that waits for nothing: its next step is always possible. */
  predicate NeverWaits(pc: Pc) {
    !pc.Idle? && !pc.Start? && !pc.Found?
  }

  function OwnStep(pc: Pc, t: nat): Step
    requires !pc.Idle?
  {
    match pc
    case Start(_) => LockGlobal(t)
    case Global(_) => Find(t)
    case Absent(_) => Create(t)
    case Found(_, _) => LockPage(t)
    case Both(_, _) => UnlockGlobal(t)
    case OnPage(_, _) => Look(t)
    case Looked(_, _, _) => Decide(t)
    case _ => Return(t)
  }

  lemma NeverWaitsEnabled(w: World, t: nat)
    requires SafeMaps(w) && t < |w.threads| && NeverWaits(w.threads[t])
    ensures Enabled(w, OwnStep(w.threads[t], t))
  {
    assert SeenHolds(w.threads[t], w.versionInfo, w.objects);
  }

  /** Whoever keeps an unfinished call from its next step can take a step. */
  lemma SomeThreadCanStep(w: World, t: nat) returns (u: nat)
    requires SafeMaps(w) && t < |w.threads| && !w.threads[t].Idle?
    ensures u < |w.threads| && !w.threads[u].Idle? && Enabled(w, OwnStep(w.threads[u], u))
  {
    assert SeenHolds(w.threads[t], w.versionInfo, w.objects);
    u := t;
    if w.threads[t].Start? {
      // whoever is inside the map's mutex, if anyone
      if w.exclusive.Some? {
        u := w.exclusive.value;
      } else if w.shared != {} {
        u :| u in w.shared;
      }
    }
    if w.threads[u].Found? {
      // whoever is inside the page's mutex, if anyone
      var o := w.threads[u].obj;
      assert SeenHolds(w.threads[u], w.versionInfo, w.objects);
      if w.owners[o].Some? {
        u := w.owners[o].value;
      }
    }
    if NeverWaits(w.threads[u]) {
      NeverWaitsEnabled(w, u);
    }
  }

  /** No deadlock: as long as a call is unfinished, some unfinished call can take its next step. */
  lemma SomeCallCanStep(n: nat, steps: seq<Step>, t: nat) returns (u: nat)
    requires Exec(n, steps).Some? && t < |Exec(n, steps).value.threads| && !Exec(n, steps).value.threads[t].Idle?
    ensures var w := Exec(n, steps).value;
            u < |w.threads| && !w.threads[u].Idle? && Enabled(w, OwnStep(w.threads[u], u))
  {
    ReachableSafe(n, steps);
    u := SomeThreadCanStep(Exec(n, steps).value, t);
  }

  /** How many steps a call still has to take, at most. */
  function Remaining(pc: Pc): nat {
    match pc
    case Idle => 0
    case Start(_) => 8
    case Global(_) => 7
    case Absent(_) => 6
    case Found(_, _) => 5
    case Both(_, _) => 4
    case OnPage(_, _) => 3
    case Looked(_, _, _) => 2
    case Missed(_) => 1
    case Finished(_, _, _) => 1
  }

  function Work(threads: seq<Pc>): nat {
    if threads == [] then 0 else Remaining(threads[0]) + Work(threads[1..])
  }

  lemma {:induction false} WorkUpdate(threads: seq<Pc>, t: nat, pc: Pc)
    requires t < |threads|
    ensures Work(threads[t := pc]) == Work(threads) - Remaining(threads[t]) + Remaining(pc)
  {
    if t > 0 {
      assert threads[t := pc][1..] == threads[1..][t - 1 := pc];
      WorkUpdate(threads[1..], t - 1, pc);
    } else {
      assert threads[t := pc][1..] == threads[1..];
    }
  }

  /** Every step of a call lowers the total work, so calls finish once no new ones are made. */
  lemma StepLowersWork(w: World, step: Step)
    requires Enabled(w, step) && !step.Invoke?
    ensures Work(Do(w, step).threads) < Work(w.threads)
  {
    WorkUpdate(w.threads, step.t, Do(w, step).threads[step.t]);
  }
}
