/** The two-level map of undo links under hand-over-hand locks, as interleaved steps of any number of threads. */
module VersionLinks {
  import opened Wrappers
  import opened Histories

  datatype UndoLink = UndoLink(prevTxn: int, prevLogIdx: int)
  datatype Rid = Rid(page: nat, slot: nat)
  type Links = map<nat, UndoLink>

  /** The two operations; a missing check is always satisfied. */
  datatype Op =
    | Update(rid: Rid, link: Option<UndoLink>, check: Option<Option<UndoLink> -> bool>)
    | Get(rid: Rid)

  datatype Outcome = Done(ok: bool) | Read(link: Option<UndoLink>)

  // ----- The atomic operations on one flat map -----

  type Flat = map<Rid, UndoLink>

  function Lookup<K, V>(m: map<K, V>, k: K): Option<V> {
    if k in m then Some(m[k]) else None
  }

  predicate Accepts(op: Op, current: Option<UndoLink>)
    requires op.Update?
  {
    op.check.Some? ==> op.check.value(current)
  }

  function AtomicResult(m: Flat, op: Op): Outcome {
    match op
    case Get(rid) => Read(Lookup(m, rid))
    case Update(rid, _, _) => Done(Accepts(op, Lookup(m, rid)))
  }

  function AtomicEffect(m: Flat, op: Op): Flat {
    if op.Update? && Accepts(op, Lookup(m, op.rid)) then
      (match op.link
       case Some(l) => m[op.rid := l]
       case None => m - {op.rid})
    else m
  }

  // ----- Histories -----

  type LinkEvent = Event<Op, Outcome>
  type LinkEntry = Entry<Op, Outcome>

  /** The flat map after the operations of the list, one after the other. */
  function Replay(log: seq<LinkEntry>): Flat {
    if log == [] then map[] else AtomicEffect(Replay(log[..|log| - 1]), log[|log| - 1].op)
  }

  /** Every entry has the result its operation has on the flat map left by the entries before it. */
  ghost predicate Legal(log: seq<LinkEntry>) {
    forall i :: 0 <= i < |log| ==> log[i].res == AtomicResult(Replay(log[..i]), log[i].op)
  }

  /** `log` is a linearization of the history: a legal sequential order of the calls on the flat map that gives every
      finished call the result it returned and respects the order of calls in time. */
  ghost predicate Linearizes(events: seq<LinkEvent>, log: seq<LinkEntry>) {
    Legal(log) && Orders(events, log)
  }

  // ----- The machine -----

  datatype Call = Call(id: nat, op: Op)

  /** Where a thread stands in its call. */
  datatype Pc =
    | Idle
    | Start(c: Call)                          // waits for the map's mutex
    | Global(c: Call)                         // holds it: exclusive for an update, shared for a read
    | Absent(c: Call)                         // update: saw that the page has no entry
    | Missed(c: Call)                         // read: saw that the page has no entry
    | Found(c: Call, obj: nat)                // has the page's object, waits for its mutex
    | Both(c: Call, obj: nat)                 // holds both mutexes
    | OnPage(c: Call, obj: nat)               // holds the page's mutex only
    | Looked(c: Call, obj: nat, current: Option<UndoLink>)  // update: read the slot
    | Finished(c: Call, obj: nat, res: Outcome)             // holds the page's mutex, about to return

  /** `versionInfo` maps a page to an object; an object is a slot map with its own mutex. */
  datatype World = World(threads: seq<Pc>, versionInfo: map<nat, nat>, objects: seq<Links>,
                         exclusive: Option<nat>, shared: set<nat>, owners: seq<Option<nat>>,
                         nextId: nat, events: seq<LinkEvent>, log: seq<LinkEntry>)

  datatype Step =
    | Invoke(t: nat, op: Op)
    | LockGlobal(t: nat)
    | Find(t: nat)
    | Create(t: nat)
    | LockPage(t: nat)
    | UnlockGlobal(t: nat)
    | Look(t: nat)
    | Decide(t: nat)
    | Return(t: nat)

  function Init(n: nat): World {
    World(seq(n, _ => Idle), map[], [], None, {}, [], 0, [], [])
  }

  predicate Enabled(w: World, step: Step) {
    step.t < |w.threads| &&
    var pc := w.threads[step.t];
    match step
    case Invoke(_, _) => pc.Idle?
    case LockGlobal(_) => pc.Start? && w.exclusive.None? && (pc.c.op.Update? ==> w.shared == {})
    case Find(_) => pc.Global?
    case Create(_) => pc.Absent?
    case LockPage(_) => pc.Found? && pc.obj < |w.owners| && w.owners[pc.obj].None?
    case UnlockGlobal(_) => pc.Both?
    case Look(_) => pc.OnPage? && pc.obj < |w.objects|
    case Decide(_) => pc.Looked? && pc.c.op.Update? && pc.obj < |w.objects|
    case Return(_) => pc.Missed? || (pc.Finished? && pc.obj < |w.owners|)
  }

  function Goto(w: World, t: nat, pc: Pc): World
    requires t < |w.threads|
  {
    w.(threads := w.threads[t := pc])
  }

  function Commit(w: World, c: Call, res: Outcome): World {
    w.(log := w.log + [Entry(c.id, c.op, res)])
  }

  function ReleaseGlobal(w: World, t: nat, op: Op): World {
    if op.Update? then w.(exclusive := None) else w.(shared := w.shared - {t})
  }

  function Do(w: World, step: Step): World
    requires Enabled(w, step)
  {
    var t := step.t;
    var pc := w.threads[t];
    match step
    case Invoke(_, op) =>
      Goto(w, t, Start(Call(w.nextId, op))).(nextId := w.nextId + 1, events := w.events + [Invoked(w.nextId, op)])
    case LockGlobal(_) =>
      var w' := Goto(w, t, Global(pc.c));
      if pc.c.op.Update? then w'.(exclusive := Some(t)) else w'.(shared := w.shared + {t})
    case Find(_) =>
      var page := pc.c.op.rid.page;
      if page in w.versionInfo then Goto(w, t, Found(pc.c, w.versionInfo[page]))
      else if pc.c.op.Update? then Goto(w, t, Absent(pc.c))
      else Commit(Goto(w, t, Missed(pc.c)), pc.c, Read(None))
    case Create(_) =>
      Goto(w, t, Found(pc.c, |w.objects|)).(versionInfo := w.versionInfo[pc.c.op.rid.page := |w.objects|],
                                             objects := w.objects + [map[]], owners := w.owners + [None])
    case LockPage(_) =>
      Goto(w, t, Both(pc.c, pc.obj)).(owners := w.owners[pc.obj := Some(t)])
    case UnlockGlobal(_) =>
      ReleaseGlobal(Goto(w, t, OnPage(pc.c, pc.obj)), t, pc.c.op)
    case Look(_) =>
      var current := Lookup(w.objects[pc.obj], pc.c.op.rid.slot);
      if pc.c.op.Update? then Goto(w, t, Looked(pc.c, pc.obj, current))
      else Commit(Goto(w, t, Finished(pc.c, pc.obj, Read(current))), pc.c, Read(current))
    case Decide(_) =>
      var op := pc.c.op;
      var ok := Accepts(op, pc.current);
      var w' := Commit(Goto(w, t, Finished(pc.c, pc.obj, Done(ok))), pc.c, Done(ok));
      if !ok then w'
      else w'.(objects := w.objects[pc.obj := match op.link
                                              case Some(l) => w.objects[pc.obj][op.rid.slot := l]
                                              case None => w.objects[pc.obj] - {op.rid.slot}])
    case Return(_) =>
      if pc.Missed? then
        ReleaseGlobal(Goto(w, t, Idle), t, pc.c.op).(events := w.events + [Returned(pc.c.id, Read(None))])
      else
        Goto(w, t, Idle).(owners := w.owners[pc.obj := None], events := w.events + [Returned(pc.c.id, pc.res)])
  }

  /** The world after a schedule, if every step of it was enabled. */
  function Exec(n: nat, steps: seq<Step>): Option<World> {
    if steps == [] then Some(Init(n))
    else
      var w := Exec(n, steps[..|steps| - 1]);
      if w.Some? && Enabled(w.value, steps[|steps| - 1]) then Some(Do(w.value, steps[|steps| - 1])) else None
  }

  // ----- What every step keeps: locks -----

  predicate HoldsGlobal(pc: Pc) {
    pc.Global? || pc.Absent? || pc.Missed? || pc.Found? || pc.Both?
  }

  predicate HoldsPage(pc: Pc) {
    pc.Both? || pc.OnPage? || pc.Looked? || pc.Finished?
  }

  predicate Writes(pc: Pc) {
    !pc.Idle? && pc.c.op.Update?
  }

  /** The map's mutex is held by exactly the threads that are inside it: one writer, or readers only. */
  ghost predicate GlobalHeld(threads: seq<Pc>, exclusive: Option<nat>, shared: set<nat>) {
    && (forall t :: 0 <= t < |threads| ==>
          (exclusive == Some(t) <==> HoldsGlobal(threads[t]) && Writes(threads[t])))
    && (forall t :: 0 <= t < |threads| ==>
          (t in shared <==> HoldsGlobal(threads[t]) && !Writes(threads[t])))
    && (forall t :: t in shared ==> t < |threads|)
    && (exclusive.Some? ==> exclusive.value < |threads| && shared == {})
  }

  /** A page's mutex is held by exactly the thread that is inside it. */
  ghost predicate PagesHeld(threads: seq<Pc>, owners: seq<Option<nat>>) {
    && (forall t :: 0 <= t < |threads| && HoldsPage(threads[t]) ==>
          threads[t].obj < |owners| && owners[threads[t].obj] == Some(t))
    && (forall o :: 0 <= o < |owners| && owners[o].Some? ==>
          owners[o].value < |threads| && HoldsPage(threads[owners[o].value]) && threads[owners[o].value].obj == o)
  }

  /** Only updates create pages and decide; only reads give up on a missing page. */
  ghost predicate RolesKept(threads: seq<Pc>) {
    forall t :: 0 <= t < |threads| ==>
      && (threads[t].Absent? || threads[t].Looked? ==> Writes(threads[t]))
      && (threads[t].Missed? ==> !Writes(threads[t]))
  }

  lemma GlobalStays(threads: seq<Pc>, exclusive: Option<nat>, shared: set<nat>, t: nat, pc: Pc)
    requires GlobalHeld(threads, exclusive, shared) && t < |threads|
    requires HoldsGlobal(threads[t]) == HoldsGlobal(pc)
    requires HoldsGlobal(pc) ==> Writes(threads[t]) == Writes(pc)
    ensures GlobalHeld(threads[t := pc], exclusive, shared)
  {
  }

  lemma GlobalTaken(threads: seq<Pc>, shared: set<nat>, t: nat, pc: Pc)
    requires GlobalHeld(threads, None, shared) && t < |threads|
    requires !HoldsGlobal(threads[t]) && HoldsGlobal(pc) && (Writes(pc) ==> shared == {})
    ensures if Writes(pc) then GlobalHeld(threads[t := pc], Some(t), shared)
            else GlobalHeld(threads[t := pc], None, shared + {t})
  {
  }

  lemma GlobalReleased(threads: seq<Pc>, exclusive: Option<nat>, shared: set<nat>, t: nat, pc: Pc)
    requires GlobalHeld(threads, exclusive, shared) && t < |threads|
    requires HoldsGlobal(threads[t]) && !HoldsGlobal(pc)
    ensures if Writes(threads[t]) then GlobalHeld(threads[t := pc], None, shared)
            else GlobalHeld(threads[t := pc], exclusive, shared - {t})
  {
  }

  lemma GlobalStep(w: World, step: Step)
    requires GlobalHeld(w.threads, w.exclusive, w.shared) && RolesKept(w.threads) && Enabled(w, step)
    ensures var w' := Do(w, step); GlobalHeld(w'.threads, w'.exclusive, w'.shared) && RolesKept(w'.threads)
  {
    var t, w' := step.t, Do(w, step);
    if step.LockGlobal? {
      GlobalTaken(w.threads, w.shared, t, w'.threads[t]);
    } else if step.UnlockGlobal? || (step.Return? && w.threads[t].Missed?) {
      GlobalReleased(w.threads, w.exclusive, w.shared, t, w'.threads[t]);
    } else {
      GlobalStays(w.threads, w.exclusive, w.shared, t, w'.threads[t]);
    }
  }

  lemma PageStays(threads: seq<Pc>, owners: seq<Option<nat>>, t: nat, pc: Pc)
    requires PagesHeld(threads, owners) && t < |threads|
    requires HoldsPage(threads[t]) == HoldsPage(pc) && (HoldsPage(pc) ==> threads[t].obj == pc.obj)
    ensures PagesHeld(threads[t := pc], owners)
    ensures PagesHeld(threads[t := pc], owners + [None])
  {
  }

  lemma PageTaken(threads: seq<Pc>, owners: seq<Option<nat>>, t: nat, pc: Pc)
    requires PagesHeld(threads, owners) && t < |threads| && !HoldsPage(threads[t]) && HoldsPage(pc)
    requires pc.obj < |owners| && owners[pc.obj].None?
    ensures PagesHeld(threads[t := pc], owners[pc.obj := Some(t)])
  {
  }

  lemma PageReleased(threads: seq<Pc>, owners: seq<Option<nat>>, t: nat)
    requires PagesHeld(threads, owners) && t < |threads| && HoldsPage(threads[t])
    ensures PagesHeld(threads[t := Idle], owners[threads[t].obj := None])
  {
  }

  lemma PagesStep(w: World, step: Step)
    requires PagesHeld(w.threads, w.owners) && Enabled(w, step)
    ensures PagesHeld(Do(w, step).threads, Do(w, step).owners)
  {
    var t, w' := step.t, Do(w, step);
    if step.LockPage? {
      PageTaken(w.threads, w.owners, t, w'.threads[t]);
    } else if step.Return? && w.threads[t].Finished? {
      PageReleased(w.threads, w.owners, t);
    } else {
      PageStays(w.threads, w.owners, t, w'.threads[t]);
    }
  }
}
