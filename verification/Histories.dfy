/** Histories of calls and what it takes for a list of operations to be a linearization of one. */
module Histories {

  datatype Event<Op, Res> = Invoked(id: nat, op: Op) | Returned(id: nat, res: Res)
  datatype Entry<Op, Res> = Entry(id: nat, op: Op, res: Res)

  ghost predicate EntriesDistinct<Op, Res>(log: seq<Entry<Op, Res>>) {
    forall i, j :: 0 <= i < j < |log| ==> log[i].id != log[j].id
  }

  /** Calls that returned are in the list, with the result they returned. */
  ghost predicate Complete<Op, Res>(events: seq<Event<Op, Res>>, log: seq<Entry<Op, Res>>) {
    forall p :: 0 <= p < |events| && events[p].Returned? ==>
      exists i :: 0 <= i < |log| && log[i].id == events[p].id && log[i].res == events[p].res
  }

  /** Only calls that were made are in the list. */
  ghost predicate Sound<Op, Res>(events: seq<Event<Op, Res>>, log: seq<Entry<Op, Res>>) {
    forall i :: 0 <= i < |log| ==> Invoked(log[i].id, log[i].op) in events
  }

  /** A call that returned before another was made stands before it in the list. */
  ghost predicate RealTime<Op, Res>(events: seq<Event<Op, Res>>, log: seq<Entry<Op, Res>>) {
    forall p, q, j :: 0 <= p < q < |events| && events[p].Returned? && events[q].Invoked?
                      && 0 <= j < |log| && log[j].id == events[q].id ==>
      exists i :: 0 <= i < j && log[i].id == events[p].id
  }

  /** The list orders the calls of the history: every finished call with its result, no call that was not made, no
      call twice, and in the order of time. */
  ghost predicate Orders<Op, Res>(events: seq<Event<Op, Res>>, log: seq<Entry<Op, Res>>) {
    EntriesDistinct(log) && Complete(events, log) && Sound(events, log) && RealTime(events, log)
  }

  ghost predicate InLog<Op, Res>(log: seq<Entry<Op, Res>>, id: nat) {
    exists i :: 0 <= i < |log| && log[i].id == id
  }

  ghost predicate IdsBelow<Op, Res>(nextId: nat, log: seq<Entry<Op, Res>>) {
    forall i :: 0 <= i < |log| ==> log[i].id < nextId
  }

  ghost predicate HistoryOk<Op, Res>(nextId: nat, events: seq<Event<Op, Res>>, log: seq<Entry<Op, Res>>) {
    IdsBelow(nextId, log) && Orders(events, log)
  }

  lemma HistoryInvoke<Op, Res>(nextId: nat, events: seq<Event<Op, Res>>, log: seq<Entry<Op, Res>>, op: Op)
    requires HistoryOk(nextId, events, log)
    ensures HistoryOk(nextId + 1, events + [Invoked(nextId, op)], log)
  {
  }

  lemma HistoryReturn<Op, Res>(nextId: nat, events: seq<Event<Op, Res>>, log: seq<Entry<Op, Res>>, e: Entry<Op, Res>)
    requires HistoryOk(nextId, events, log) && e in log
    ensures HistoryOk(nextId, events + [Returned(e.id, e.res)], log)
  {
  }

  lemma CompleteLater<Op, Res>(events: seq<Event<Op, Res>>, log: seq<Entry<Op, Res>>, e: Entry<Op, Res>)
    requires Complete(events, log)
    ensures Complete(events, log + [e])
  {
    forall p | 0 <= p < |events| && events[p].Returned?
      ensures exists i :: 0 <= i < |log + [e]|
                          && (log + [e])[i].id == events[p].id && (log + [e])[i].res == events[p].res
    {
      var i :| 0 <= i < |log| && log[i].id == events[p].id && log[i].res == events[p].res;
      assert (log + [e])[i] == log[i];
    }
  }

  /** A call settled last may stand last: every call that returned before stands before it. */
  lemma RealTimeLater<Op, Res>(events: seq<Event<Op, Res>>, log: seq<Entry<Op, Res>>, e: Entry<Op, Res>)
    requires Complete(events, log) && RealTime(events, log)
    ensures RealTime(events, log + [e])
  {
    var log' := log + [e];
    forall p, q, j | 0 <= p < q < |events| && events[p].Returned? && events[q].Invoked?
                     && 0 <= j < |log'| && log'[j].id == events[q].id
      ensures exists i :: 0 <= i < j && log'[i].id == events[p].id
    {
      var bound := if j < |log| then j else |log|;
      assert exists i :: 0 <= i < bound && log[i].id == events[p].id by {
        if j < |log| {
          assert log[j].id == events[q].id;
        }
      }
      var i :| 0 <= i < bound && log[i].id == events[p].id;
      assert log'[i] == log[i];
    }
  }

  lemma HistoryCommit<Op, Res>(nextId: nat, events: seq<Event<Op, Res>>, log: seq<Entry<Op, Res>>, e: Entry<Op, Res>)
    requires HistoryOk(nextId, events, log) && e.id < nextId && !InLog(log, e.id)
    requires Invoked(e.id, e.op) in events
    ensures HistoryOk(nextId, events, log + [e])
  {
    CompleteLater(events, log, e);
    RealTimeLater(events, log, e);
  }

  // ----- Recording a history as threads make, settle and finish calls -----

  /** A thread makes no call, is in a call whose result is open, or in one whose result is fixed. */
  datatype Status<Op, Res> = Free | Pending(id: nat, op: Op) | Settled(id: nat, op: Op, res: Res)

  /** The calls of the threads, the history so far, and the list of settled calls in the order they settled. */
  datatype Record<Op, Res> =
    Record(calls: seq<Status<Op, Res>>, nextId: nat, events: seq<Event<Op, Res>>, log: seq<Entry<Op, Res>>)

  ghost predicate Tracked<Op, Res>(st: Status<Op, Res>, nextId: nat, events: seq<Event<Op, Res>>,
                                   log: seq<Entry<Op, Res>>) {
    !st.Free? ==>
      && st.id < nextId && Invoked(st.id, st.op) in events
      && (if st.Settled? then Entry(st.id, st.op, st.res) in log else !InLog(log, st.id))
  }

  ghost predicate RecordOk<Op, Res>(r: Record<Op, Res>) {
    && (forall t :: 0 <= t < |r.calls| ==> Tracked(r.calls[t], r.nextId, r.events, r.log))
    && (forall t, u :: 0 <= t < u < |r.calls| && !r.calls[t].Free? && !r.calls[u].Free? ==>
          r.calls[t].id != r.calls[u].id)
    && HistoryOk(r.nextId, r.events, r.log)
  }

  ghost predicate Begins<Op, Res>(r: Record<Op, Res>, r': Record<Op, Res>, t: nat, op: Op) {
    t < |r.calls| && r.calls[t].Free? &&
    r' == Record(r.calls[t := Pending(r.nextId, op)], r.nextId + 1, r.events + [Invoked(r.nextId, op)], r.log)
  }

  ghost predicate Settles<Op, Res>(r: Record<Op, Res>, r': Record<Op, Res>, t: nat, res: Res) {
    t < |r.calls| && r.calls[t].Pending? &&
    var (id, op) := (r.calls[t].id, r.calls[t].op);
    r' == Record(r.calls[t := Settled(id, op, res)], r.nextId, r.events, r.log + [Entry(id, op, res)])
  }

  ghost predicate Finishes<Op, Res>(r: Record<Op, Res>, r': Record<Op, Res>, t: nat) {
    t < |r.calls| && r.calls[t].Settled? &&
    r' == Record(r.calls[t := Free], r.nextId, r.events + [Returned(r.calls[t].id, r.calls[t].res)], r.log)
  }

  lemma TrackedLater<Op, Res>(st: Status<Op, Res>, r: Record<Op, Res>, r': Record<Op, Res>)
    requires Tracked(st, r.nextId, r.events, r.log)
    requires r.nextId <= r'.nextId && r.events <= r'.events && r.log <= r'.log
    requires !st.Free? ==> forall i :: |r.log| <= i < |r'.log| ==> r'.log[i].id != st.id
    ensures Tracked(st, r'.nextId, r'.events, r'.log)
  {
    if !st.Free? {
      assert Invoked(st.id, st.op) in r'.events;
      assert forall i :: 0 <= i < |r.log| ==> r'.log[i] == r.log[i];
    }
  }

  lemma OthersTracked<Op, Res>(r: Record<Op, Res>, r': Record<Op, Res>, t: nat)
    requires RecordOk(r) && t < |r.calls| == |r'.calls|
    requires r.nextId <= r'.nextId && r.events <= r'.events
    requires r'.log == r.log
             || (!r.calls[t].Free? && exists e: Entry<Op, Res> :: r'.log == r.log + [e] && e.id == r.calls[t].id)
    requires forall u :: 0 <= u < |r.calls| && u != t ==> r'.calls[u] == r.calls[u]
    ensures forall u :: 0 <= u < |r.calls| && u != t ==> Tracked(r'.calls[u], r'.nextId, r'.events, r'.log)
  {
    forall u | 0 <= u < |r.calls| && u != t ensures Tracked(r'.calls[u], r'.nextId, r'.events, r'.log) {
      TrackedLater(r.calls[u], r, r');
    }
  }

  /** Making, settling and finishing calls keeps the list an ordering of the history. */
  lemma RecordStep<Op, Res>(r: Record<Op, Res>, r': Record<Op, Res>, t: nat)
    requires RecordOk(r)
    requires || r' == r
             || (exists op: Op :: Begins(r, r', t, op))
             || (exists res: Res :: Settles(r, r', t, res))
             || Finishes(r, r', t)
    ensures RecordOk(r')
  {
    if r' != r {
      assert Tracked(r.calls[t], r.nextId, r.events, r.log);
      if op: Op :| Begins(r, r', t, op) {
        HistoryInvoke(r.nextId, r.events, r.log, op);
      } else if res: Res :| Settles(r, r', t, res) {
        HistoryCommit(r.nextId, r.events, r.log, Entry(r.calls[t].id, r.calls[t].op, res));
      } else {
        HistoryReturn(r.nextId, r.events, r.log, Entry(r.calls[t].id, r.calls[t].op, r.calls[t].res));
      }
      OthersTracked(r, r', t);
    }
  }
}
